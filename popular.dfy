/** The fixed program sources of the Windows search (src/main/index.js):
    `findPopularApplications`, `getProgramsFromRegistry`, the per-directory rule of
    `getModernWindowsApps` and `scanUserAppDirectory`. `fs.access` is the oracle
    `present`; `fs.readdir` is the oracle `listDir`, `None` when listing throws
    (only the kind and name of the entries it returns matter here). Environment
    variables are `Option`s, an unset one reading as the text `undefined`. */
module Popular {
  import opened Options
  import opened Programs
  import Text
  import Paths
  import Scanners

  /** `process.env.X + '...'`: an unset variable concatenates as `undefined`. */
  function EnvText(v: Option<string>): string {
    v.GetOr("undefined")
  }

  /** An application and the paths tried for it, some with a `*` wildcard. */
  datatype Candidate = Candidate(name: string, paths: seq<string>)

  /** The six popular applications and their candidate paths, in order. */
  function PopularApps(localAppData: Option<string>, appData: Option<string>): seq<Candidate> {
    var local := EnvText(localAppData);
    var roaming := EnvText(appData);
    [ Candidate("Discord", [local + "\\Discord\\app-*\\Discord.exe", local + "\\Discord\\Update.exe",
                             roaming + "\\Discord\\app-*\\Discord.exe"]),
      Candidate("Steam", ["C:\\Program Files (x86)" + "\\Steam\\Steam.exe", "C:\\Program Files" + "\\Steam\\Steam.exe"]),
      Candidate("Spotify", [roaming + "\\Spotify\\Spotify.exe",
                             local + "\\Microsoft\\WindowsApps" + "\\SpotifyAB.SpotifyMusic_*" + "\\Spotify.exe"]),
      Candidate("Telegram", [roaming + "\\Telegram Desktop" + "\\Telegram.exe",
                              local + "\\Programs\\Telegram" + "\\Telegram.exe"]),
      Candidate("WhatsApp", [local + "\\WhatsApp\\WhatsApp.exe", roaming + "\\WhatsApp\\WhatsApp.exe"]),
      Candidate("Slack", [local + "\\slack\\app-*\\slack.exe", roaming + "\\slack\\app-*\\slack.exe"]) ]
  }

  /** The wildcard branch's base directory: `pattern.split('*')[0]`. */
  function WildcardBase(pattern: string): string {
    Text.BeforeChar(pattern, '*')
  }

  /** The wildcard branch's file part: `pattern.split('*')[1]`. */
  function WildcardFile(pattern: string): string
    requires '*' in pattern
  {
    Text.SecondSegment(pattern, '*')
  }

  /** An entry the wildcard branch looks into: a directory named `app-...`. */
  predicate IsAppDir(e: Scanners.Entry) {
    e.Dir? && Text.StartsWith(e.name, "app-")
  }

  /** `path.join(basePath, item.name, fileName)`. */
  function CandidatePath(base: string, dirName: string, fileName: string): string {
    Paths.Join(Paths.Join(base, dirName, true), fileName, true)
  }

  /** The entry the wildcard branch accepts: an `app-` directory under which the
      file part exists. */
  predicate Hit(base: string, fileName: string, e: Scanners.Entry, present: string -> bool) {
    IsAppDir(e) && present(CandidatePath(base, e.name, fileName))
  }

  /** The wildcard branch's loop over the base directory's entries: the first
      hit gives the one entry, and the loop stops there. */
  function FirstAppDir(appName: string, base: string, fileName: string, items: seq<Scanners.Entry>,
                       present: string -> bool): (r: seq<Program>)
    ensures |r| <= 1
  {
    if items == [] then []
    else if Hit(base, fileName, items[0], present) then
      [Program(appName, CandidatePath(base, items[0].name, fileName), PopularApp, false)]
    else FirstAppDir(appName, base, fileName, items[1..], present)
  }

  /** The wildcard branch reports nothing exactly when no entry is a hit. */
  lemma {:induction false} FirstAppDirNone(appName: string, base: string, fileName: string,
                                           items: seq<Scanners.Entry>, present: string -> bool)
    ensures FirstAppDir(appName, base, fileName, items, present) == []
            <==> forall k :: 0 <= k < |items| ==> !Hit(base, fileName, items[k], present)
  {
    if items != [] && !Hit(base, fileName, items[0], present) {
      var tail := items[1..];
      FirstAppDirNone(appName, base, fileName, tail, present);
      assert forall k :: 1 <= k < |items| ==> items[k] == tail[k - 1];
    }
  }

  /** The position of the first hit among the entries, `|items|` when there is none. */
  function FirstHit(base: string, fileName: string, items: seq<Scanners.Entry>, present: string -> bool): (k: nat)
    ensures k <= |items|
    ensures forall j :: 0 <= j < k ==> !Hit(base, fileName, items[j], present)
    ensures k < |items| ==> Hit(base, fileName, items[k], present)
  {
    if items == [] then 0
    else if Hit(base, fileName, items[0], present) then 0
    else 1 + FirstHit(base, fileName, items[1..], present)
  }

  /** Otherwise it reports the first hit, an existing path of the application. */
  lemma {:induction false} FirstAppDirFirst(appName: string, base: string, fileName: string,
                                            items: seq<Scanners.Entry>, present: string -> bool)
    ensures FirstHit(base, fileName, items, present) < |items| ==>
              FirstAppDir(appName, base, fileName, items, present)
              == [Program(appName, CandidatePath(base, items[FirstHit(base, fileName, items, present)].name, fileName),
                          PopularApp, false)]
    ensures FirstHit(base, fileName, items, present) == |items| ==>
              FirstAppDir(appName, base, fileName, items, present) == []
  {
    if items != [] && !Hit(base, fileName, items[0], present) {
      var tail := items[1..];
      FirstAppDirFirst(appName, base, fileName, tail, present);
      if FirstHit(base, fileName, tail, present) < |tail| {
        assert items[FirstHit(base, fileName, items, present)] == tail[FirstHit(base, fileName, tail, present)];
      }
    }
  }

  /** What one candidate path yields: for a wildcard pattern, the first existing
      `app-` candidate under its base directory if the base present and can be
      listed; for a plain path, the path itself if it present. */
  function PatternFinds(appName: string, pattern: string, present: string -> bool,
                        listDir: string -> Option<seq<Scanners.Entry>>): (r: seq<Program>)
    ensures |r| <= 1
    ensures forall k :: 0 <= k < |r| ==> r[k].name == appName && r[k].kind == PopularApp && present(r[k].path)
  {
    if '*' in pattern then
      var base := WildcardBase(pattern);
      if !present(base) then []
      else
        match listDir(base)
        case None => []
        case Some(items) =>
          FirstAppDirFirst(appName, base, WildcardFile(pattern), items, present);
          FirstAppDir(appName, base, WildcardFile(pattern), items, present)
    else if present(pattern) then [Program(appName, pattern, PopularApp, false)]
    else []
  }

  /** The entries found for one application, pattern by pattern. */
  function AppFinds(app: string, patterns: seq<string>, present: string -> bool,
                    listDir: string -> Option<seq<Scanners.Entry>>): (r: seq<Program>)
    ensures |r| <= |patterns|
    ensures forall k :: 0 <= k < |r| ==> r[k].name == app && r[k].kind == PopularApp && present(r[k].path)
  {
    if patterns == [] then []
    else AppFinds(app, patterns[..|patterns| - 1], present, listDir)
         + PatternFinds(app, patterns[|patterns| - 1], present, listDir)
  }

  /** The entries found for every application, application by application. */
  function AllFinds(apps: seq<Candidate>, present: string -> bool,
                    listDir: string -> Option<seq<Scanners.Entry>>): (r: seq<Program>)
    ensures forall k :: 0 <= k < |r| ==>
              r[k].kind == PopularApp && present(r[k].path) && exists a :: a in apps && a.name == r[k].name
  {
    if apps == [] then []
    else
      var init := apps[..|apps| - 1];
      var last := apps[|apps| - 1];
      var r0 := AllFinds(init, present, listDir);
      var r1 := AppFinds(last.name, last.paths, present, listDir);
      assert forall k :: 0 <= k < |r0| ==> exists a :: a in apps && a.name == r0[k].name by {
        forall k | 0 <= k < |r0| ensures exists a :: a in apps && a.name == r0[k].name {
          var a :| a in init && a.name == r0[k].name;
          assert a in apps;
        }
      }
      r0 + r1
  }

  /** The wildcard branch's inner loop, which `break`s at the first hit. */
  method SearchAppDirs(appName: string, base: string, fileName: string, items: seq<Scanners.Entry>,
                       present: string -> bool) returns (found: seq<Program>)
    ensures found == FirstAppDir(appName, base, fileName, items, present)
  {
    found := [];
    var i := 0;
    while i < |items|
      invariant 0 <= i <= |items|
      invariant FirstAppDir(appName, base, fileName, items, present) == FirstAppDir(appName, base, fileName, items[i..], present)
    {
      var item := items[i];
      assert items[i..][1..] == items[i + 1..];
      if IsAppDir(item) {
        var fullPath := CandidatePath(base, item.name, fileName);
        if present(fullPath) {
          found := [Program(appName, fullPath, PopularApp, false)];
          return;
        }
      }
      i := i + 1;
    }
  }

  /** One candidate path: the wildcard branch or the plain `fs.access` test. */
  method SearchPattern(appName: string, pattern: string, present: string -> bool,
                       listDir: string -> Option<seq<Scanners.Entry>>)
    returns (found: seq<Program>)
    ensures found == PatternFinds(appName, pattern, present, listDir)
  {
    found := [];
    if '*' in pattern {
      var base := WildcardBase(pattern);
      if present(base) {
        var listing := listDir(base);
        if listing.Some? {
          found := SearchAppDirs(appName, base, WildcardFile(pattern), listing.value, present);
        }
      }
    } else if present(pattern) {
      found := [Program(appName, pattern, PopularApp, false)];
    }
  }

  /** The loop over one application's candidate paths. */
  method SearchApp(app: Candidate, present: string -> bool, listDir: string -> Option<seq<Scanners.Entry>>)
    returns (found: seq<Program>)
    ensures found == AppFinds(app.name, app.paths, present, listDir)
  {
    found := [];
    var j := 0;
    while j < |app.paths|
      invariant 0 <= j <= |app.paths|
      invariant found == AppFinds(app.name, app.paths[..j], present, listDir)
    {
      assert app.paths[..j + 1][..j] == app.paths[..j];
      var hit := SearchPattern(app.name, app.paths[j], present, listDir);
      found := found + hit;
      j := j + 1;
    }
    assert app.paths[..j] == app.paths;
  }

  /** `findPopularApplications()`: every application's finds, in table order. */
  method FindPopularApplications(localAppData: Option<string>, appData: Option<string>,
                                 present: string -> bool, listDir: string -> Option<seq<Scanners.Entry>>)
    returns (programs: seq<Program>)
    ensures programs == AllFinds(PopularApps(localAppData, appData), present, listDir)
  {
    var apps := PopularApps(localAppData, appData);
    programs := [];
    var i := 0;
    while i < |apps|
      invariant 0 <= i <= |apps|
      invariant programs == AllFinds(apps[..i], present, listDir)
    {
      assert apps[..i + 1][..i] == apps[..i];
      var found := SearchApp(apps[i], present, listDir);
      programs := programs + found;
      i := i + 1;
    }
    assert apps[..i] == apps;
  }

  /** The base of the first Discord pattern still holds the `app-` prefix and
      the file part keeps its leading backslash: the branch lists a directory
      named `...\Discord\app-` rather than `...\Discord`. */
  lemma DiscordWildcardBase(localAppData: string)
    requires '*' !in localAppData
    ensures var p := PopularApps(Some(localAppData), None)[0].paths[0];
            '*' in p && WildcardBase(p) == localAppData + "\\Discord\\app-" && WildcardFile(p) == "\\Discord.exe"
  {
    var pre := localAppData + "\\Discord\\app-";
    assert '*' !in "\\Discord\\app-";
    assert PopularApps(Some(localAppData), None)[0].paths[0] == pre + ['*'] + "\\Discord.exe";
    Text.SplitAtFirst(pre, '*', "\\Discord.exe");
  }

  /** Plain paths are tried one by one with no `break` between them: every
      existing one is reported, in order. */
  lemma {:induction false} PlainPathsAllFound(app: string, patterns: seq<string>, present: string -> bool,
                                              listDir: string -> Option<seq<Scanners.Entry>>)
    requires forall k :: 0 <= k < |patterns| ==> '*' !in patterns[k] && present(patterns[k])
    ensures |AppFinds(app, patterns, present, listDir)| == |patterns|
    ensures forall k :: 0 <= k < |patterns| ==> AppFinds(app, patterns, present, listDir)[k].path == patterns[k]
  {
    if patterns != [] {
      PlainPathsAllFound(app, patterns[..|patterns| - 1], present, listDir);
    }
  }

  /** Hence, when both Steam paths exist, Steam is reported twice. */
  lemma SteamFoundTwice(present: string -> bool, listDir: string -> Option<seq<Scanners.Entry>>)
    requires forall p :: present(p)
    ensures |AppFinds("Steam", PopularApps(None, None)[1].paths, present, listDir)| == 2
  {
    var ps := PopularApps(None, None)[1].paths;
    assert '*' !in ps[0] && '*' !in ps[1];
    PlainPathsAllFound("Steam", ps, present, listDir);
  }

  // ---- getProgramsFromRegistry ----

  /** The sixteen executables `getProgramsFromRegistry` reports, whatever the
      registry holds. */
  const CommonApps: seq<string> := [
    "chrome.exe", "firefox.exe", "msedge.exe", "iexplore.exe",
    "winword.exe", "excel.exe", "powerpnt.exe", "outlook.exe",
    "acrobat.exe", "photoshop.exe", "illustrator.exe", "vscode.exe",
    "notepad++.exe", "sublime_text.exe", "atom.exe", "code.exe"]

  /** A name made of a dot-free stem and `.exe` loses exactly that `.exe`. */
  lemma ExeStem(a: string)
    requires |a| >= 4 && a[|a| - 4..] == ".exe"
    requires forall k :: 0 <= k < |a| - 4 ==> a[k] != '.'
    ensures StripExe(a) + ".exe" == a
  {
    var stem := a[..|a| - 4];
    assert a == stem + ".exe" + "";
    StripExeFirstOnly(stem, "");
  }

  /** Each common file name is a dot-free stem followed by `.exe`. */
  lemma CommonAppsStems()
    ensures forall k :: 0 <= k < |CommonApps| ==> StripExe(CommonApps[k]) + ".exe" == CommonApps[k]
  {
    forall k | 0 <= k < |CommonApps|
      ensures StripExe(CommonApps[k]) + ".exe" == CommonApps[k]
    {
      if k == 0 { StemAt0(); }
      else if k == 1 { StemAt1(); }
      else if k == 2 { StemAt2(); }
      else if k == 3 { StemAt3(); }
      else if k == 4 { StemAt4(); }
      else if k == 5 { StemAt5(); }
      else if k == 6 { StemAt6(); }
      else if k == 7 { StemAt7(); }
      else if k == 8 { StemAt8(); }
      else if k == 9 { StemAt9(); }
      else if k == 10 { StemAt10(); }
      else if k == 11 { StemAt11(); }
      else if k == 12 { StemAt12(); }
      else if k == 13 { StemAt13(); }
      else if k == 14 { StemAt14(); }
      else { StemAt15(); }
    }
  }

  // One lemma per entry of the list: the name at that index is its stem and `.exe`.
  lemma StemAt0() ensures StripExe(CommonApps[0]) + ".exe" == CommonApps[0]
  { assert CommonApps[0] == "chrome.exe"; ExeStem("chrome.exe"); }
  lemma StemAt1() ensures StripExe(CommonApps[1]) + ".exe" == CommonApps[1]
  { assert CommonApps[1] == "firefox.exe"; ExeStem("firefox.exe"); }
  lemma StemAt2() ensures StripExe(CommonApps[2]) + ".exe" == CommonApps[2]
  { assert CommonApps[2] == "msedge.exe"; ExeStem("msedge.exe"); }
  lemma StemAt3() ensures StripExe(CommonApps[3]) + ".exe" == CommonApps[3]
  { assert CommonApps[3] == "iexplore.exe"; ExeStem("iexplore.exe"); }
  lemma StemAt4() ensures StripExe(CommonApps[4]) + ".exe" == CommonApps[4]
  { assert CommonApps[4] == "winword.exe"; ExeStem("winword.exe"); }
  lemma StemAt5() ensures StripExe(CommonApps[5]) + ".exe" == CommonApps[5]
  { assert CommonApps[5] == "excel.exe"; ExeStem("excel.exe"); }
  lemma StemAt6() ensures StripExe(CommonApps[6]) + ".exe" == CommonApps[6]
  { assert CommonApps[6] == "powerpnt.exe"; ExeStem("powerpnt.exe"); }
  lemma StemAt7() ensures StripExe(CommonApps[7]) + ".exe" == CommonApps[7]
  { assert CommonApps[7] == "outlook.exe"; ExeStem("outlook.exe"); }
  lemma StemAt8() ensures StripExe(CommonApps[8]) + ".exe" == CommonApps[8]
  { assert CommonApps[8] == "acrobat.exe"; ExeStem("acrobat.exe"); }
  lemma StemAt9() ensures StripExe(CommonApps[9]) + ".exe" == CommonApps[9]
  { assert CommonApps[9] == "photoshop.exe"; ExeStem("photoshop.exe"); }
  lemma StemAt10() ensures StripExe(CommonApps[10]) + ".exe" == CommonApps[10]
  { assert CommonApps[10] == "illustrator.exe"; ExeStem("illustrator.exe"); }
  lemma StemAt11() ensures StripExe(CommonApps[11]) + ".exe" == CommonApps[11]
  { assert CommonApps[11] == "vscode.exe"; ExeStem("vscode.exe"); }
  lemma StemAt12() ensures StripExe(CommonApps[12]) + ".exe" == CommonApps[12]
  { assert CommonApps[12] == "notepad++.exe"; ExeStem("notepad++.exe"); }
  lemma StemAt13() ensures StripExe(CommonApps[13]) + ".exe" == CommonApps[13]
  { assert CommonApps[13] == "sublime_text.exe"; ExeStem("sublime_text.exe"); }
  lemma StemAt14() ensures StripExe(CommonApps[14]) + ".exe" == CommonApps[14]
  { assert CommonApps[14] == "atom.exe"; ExeStem("atom.exe"); }
  lemma StemAt15() ensures StripExe(CommonApps[15]) + ".exe" == CommonApps[15]
  { assert CommonApps[15] == "code.exe"; ExeStem("code.exe"); }

  /** No common file name is listed twice. */
  lemma CommonAppsDistinct()
    ensures forall i, j :: 0 <= i < j < |CommonApps| ==> CommonApps[i] != CommonApps[j]
  {
  }

  /** A name ending in a lower-case `.exe` is accepted as an executable. */
  lemma ExeSuffixAccepted(stem: string)
    ensures IsExeName(stem + ".exe")
  {
    var a := stem + ".exe";
    var l := Text.ToLower(a);
    assert l[|a| - 4..] == ".exe" by {
      assert l[|a| - 4] == '.' && l[|a| - 3] == 'e' && l[|a| - 2] == 'x' && l[|a| - 1] == 'e';
    }
  }

  /** The entry reported for one common file name `app`, named by its stem. */
  function RegistryEntry(app: string): (p: Program)
    requires StripExe(app) + ".exe" == app
    ensures p.kind == Executable && !p.working && p.path == app
    ensures p.path == p.name + ".exe" && IsExeName(p.path)
  {
    ExeSuffixAccepted(StripExe(app));
    Program(StripExe(app), app, Executable, false)
  }

  /** Entries named by the stems of distinct paths have distinct names. */
  lemma NamesFromPaths(r: seq<Program>)
    requires forall i, j :: 0 <= i < j < |r| ==> r[i].path != r[j].path
    requires forall k :: 0 <= k < |r| ==> r[k].path == r[k].name + ".exe"
    ensures forall i, j :: 0 <= i < j < |r| ==> r[i].name != r[j].name
  {
  }

  /** `getProgramsFromRegistry`: one `executable` entry per common application,
      whatever the registry holds. Each entry's path is its file name and its
      name that file name without the `.exe` it ends in; no two share a name. */
  function RegistryPrograms(): (r: seq<Program>)
    ensures |r| == 16
    ensures forall k :: 0 <= k < |r| ==>
              r[k].kind == Executable && !r[k].working && r[k].path == CommonApps[k]
              && r[k].path == r[k].name + ".exe" && IsExeName(r[k].path)
    ensures forall i, j :: 0 <= i < j < |r| ==> r[i].name != r[j].name
  {
    CommonAppsStems();
    CommonAppsDistinct();
    var r := seq(|CommonApps|, k requires 0 <= k < |CommonApps| => RegistryEntry(CommonApps[k]));
    NamesFromPaths(r);
    r
  }

  // ---- getModernWindowsApps and scanUserAppDirectory ----

  /** A modern app's name: its directory name up to the first `_`, which drops
      the version and publisher suffix (`item.name.split('_')[0]`). */
  function ModernAppName(dirName: string): (r: string)
    ensures '_' !in r && Text.StartsWith(dirName, r)
    ensures '_' !in dirName ==> r == dirName
    ensures |r| < |dirName| ==> dirName[|r|] == '_'
  {
    Text.BeforeChar(dirName, '_')
  }

  /** Within one app directory, the first `.exe` file gives the app's one entry,
      named after the directory. */
  function FirstExe(appDir: string, dirName: string, items: seq<Scanners.Entry>): (r: seq<Program>)
    ensures |r| <= 1
    ensures |r| == 1 ==> r[0].name == ModernAppName(dirName) && r[0].kind == ModernApp
                         && exists k :: 0 <= k < |items| && items[k].File? && IsExeName(items[k].name)
                                        && r[0].path == Paths.Join(appDir, items[k].name, true)
    ensures r == [] <==> forall k :: 0 <= k < |items| ==> !(items[k].File? && IsExeName(items[k].name))
  {
    if items == [] then []
    else if items[0].File? && IsExeName(items[0].name) then
      [Program(ModernAppName(dirName), Paths.Join(appDir, items[0].name, true), ModernApp, false)]
    else
      assert forall k :: 1 <= k < |items| ==> items[k] == items[1..][k - 1];
      FirstExe(appDir, dirName, items[1..])
  }

  /** `scanUserAppDirectory(appPath, programs)`: the `.exe` files directly in the
      directory, none below it, as modern apps. */
  function UserAppPrograms(appPath: string, readable: bool, items: seq<Scanners.Entry>): (r: seq<Program>)
    ensures r == Scanners.ExePrograms(Scanners.Walk(appPath, readable, items, 1, 0), ModernApp)
    ensures forall k :: 0 <= k < |Scanners.Walk(appPath, readable, items, 1, 0)| ==>
              Scanners.Walk(appPath, readable, items, 1, 0)[k].depth == 0
  {
    Scanners.ExeScanIsWalk(appPath, readable, items, 1, 0, ModernApp);
    Scanners.ExeScan(appPath, readable, items, 1, 0, ModernApp)
  }
}
