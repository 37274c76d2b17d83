/** `createTaskGroupShortcut` and `getDesktopPath` (src/main/index.js): the
    launcher file for a task group written to the user's desktop. Writing the
    file is an effect; its failure is the parameter `writeError`, the message
    it would throw. `chmod +x` goes through the callback form of `exec`, which
    the `await` neither waits for nor can see fail, so it is only requested. */
module Shortcut {
  import opened Options
  import opened Tasks
  import Paths
  import Popular
  import BatchScript
  import ShellScript
  import Lines
  import Text

  /** The characters the pattern `[a-zA-Z0-9]` accepts. */
  predicate IsAlnum(c: char) {
    ('a' <= c <= 'z') || ('A' <= c <= 'Z') || ('0' <= c <= '9')
  }

  /** `replace(/[^a-zA-Z0-9]/g, '_')` on one character. The pattern has no `u`
      flag, so it sees UTF-16 code units: a character beyond U+FFFF is two units
      and becomes two underscores. */
  function SanitizeChar(c: char): (r: string)
    ensures 1 <= |r| <= 2
  {
    if IsAlnum(c) then [c]
    else if c as int > 0xFFFF then "__"
    else "_"
  }

  function SanitizeName(s: string): (r: string)
    ensures |s| <= |r| <= 2 * |s|
  {
    if s == [] then [] else SanitizeName(s[..|s| - 1]) + SanitizeChar(s[|s| - 1])
  }

  /** Only letters, digits and underscores survive, so no path separator can. */
  lemma {:induction false} SanitizedIsSafe(s: string)
    ensures forall k :: 0 <= k < |SanitizeName(s)| ==> IsAlnum(SanitizeName(s)[k]) || SanitizeName(s)[k] == '_'
  {
    if s != [] {
      SanitizedIsSafe(s[..|s| - 1]);
    }
  }

  /** On text within the Basic Multilingual Plane the replacement is one for
      one: each letter or digit is kept, every other character becomes `_`. */
  lemma {:induction false} SanitizeBmp(s: string)
    requires forall k :: 0 <= k < |s| ==> s[k] as int <= 0xFFFF
    ensures |SanitizeName(s)| == |s|
    ensures forall k :: 0 <= k < |s| ==> SanitizeName(s)[k] == if IsAlnum(s[k]) then s[k] else '_'
  {
    if s != [] {
      SanitizeBmp(s[..|s| - 1]);
    }
  }

  lemma {:induction false} SanitizeAppend(a: string, b: string)
    ensures SanitizeName(a + b) == SanitizeName(a) + SanitizeName(b)
    decreases |b|
  {
    if b == [] {
      assert a + b == a;
    } else {
      var init := b[..|b| - 1];
      assert (a + b)[..|a + b| - 1] == a + init;
      assert SanitizeName(a + b) == SanitizeName(a + init) + SanitizeChar(b[|b| - 1]);
      assert SanitizeName(b) == SanitizeName(init) + SanitizeChar(b[|b| - 1]);
      SanitizeAppend(a, init);
    }
  }

  /** A name made only of letters, digits and underscores is left as it is. */
  lemma {:induction false} SanitizeSafe(s: string)
    requires forall k :: 0 <= k < |s| ==> IsAlnum(s[k]) || s[k] == '_'
    ensures SanitizeName(s) == s
  {
    if s != [] {
      SanitizeSafe(s[..|s| - 1]);
    }
  }

  /** Sanitizing a sanitized name changes nothing. */
  lemma SanitizeIdempotent(s: string)
    ensures SanitizeName(SanitizeName(s)) == SanitizeName(s)
  {
    SanitizedIsSafe(s);
    SanitizeSafe(SanitizeName(s));
  }

  /** `getDesktopPath()`: the Desktop folder under `USERPROFILE` on Windows and
      under `HOME` elsewhere, an unset variable reading as `undefined`. */
  function DesktopPath(platform: string, userProfile: Option<string>, home: Option<string>): (r: string)
    ensures r != []
  {
    if platform == "win32" then Popular.EnvText(userProfile) + "\\Desktop"
    else Popular.EnvText(home) + "/Desktop"
  }

  /** The file kind chosen by platform: Windows batch, macOS `.command`, and a
      shell script everywhere else. */
  datatype Launcher = BatchFile | CommandFile | ScriptFile

  function LauncherFor(platform: string): Launcher {
    if platform == "win32" then BatchFile
    else if platform == "darwin" then CommandFile
    else ScriptFile
  }

  function Extension(l: Launcher): string {
    match l
    case BatchFile => ".bat"
    case CommandFile => ".command"
    case ScriptFile => ".sh"
  }

  function FileName(groupName: string, l: Launcher): (r: string)
    ensures r != []
  {
    SanitizeName(groupName) + "_tasks" + Extension(l)
  }

  /** What the handler returns: `{ success: true, message, instructions }` with
      the file it wrote, or `{ success: false, message }` when the write threw.
      `chmodRequested` says whether `chmod +x` was started on the file; its
      result is neither awaited nor checked. */
  datatype Outcome =
    | Created(fileName: string, path: string, content: string, chmodRequested: bool,
              message: string, instructions: string)
    | Failed(message: string)

  function Message(groupName: string, l: Launcher): string {
    var what := match l
      case BatchFile => "Batch file"
      case CommandFile => "Command file"
      case ScriptFile => "Script file";
    what + " for task group '" + groupName + "' created successfully!"
  }

  function Instructions(fileName: string, l: Launcher): string {
    var how := match l
      case BatchFile => "Double-click the .bat file to run all your tasks!"
      case CommandFile => "Double-click the .command file to run your task group!"
      case ScriptFile => "Double-click the .sh file or run it from terminal to execute your task group!";
    "File created on desktop: " + fileName + "\n\n" + how
  }

  /** The launcher's text: the batch file on Windows, the shell script elsewhere. */
  function Content(group: TaskGroup, platform: string, isoTime: string, localTime: string): string {
    if LauncherFor(platform) == BatchFile then Lines.Render(BatchScript.BatchLines(group, localTime), BatchScript.EOL)
    else Lines.Render(ShellScript.ShellLines(group, platform, isoTime, localTime), ShellScript.EOL)
  }

  /** The whole handler: the file written and the answer given. */
  function ShortcutOutcome(group: TaskGroup, platform: string, userProfile: Option<string>, home: Option<string>,
                           isoTime: string, localTime: string,
                           writeError: Option<string>): Outcome
  {
    var l := LauncherFor(platform);
    var fileName := FileName(group.name, l);
    if writeError.Some? then Failed(writeError.value)
    else
      Created(fileName, Paths.Join(DesktopPath(platform, userProfile, home), fileName, platform == "win32"),
              Content(group, platform, isoTime, localTime), l != BatchFile,
              Message(group.name, l), Instructions(fileName, l))
  }

  /** `createTaskGroupShortcut(groupData)` behind its IPC handler. */
  method CreateTaskGroupShortcut(group: TaskGroup, platform: string, userProfile: Option<string>, home: Option<string>,
                                 isoTime: string, localTime: string,
                                 writeError: Option<string>)
    returns (outcome: Outcome)
    ensures outcome == ShortcutOutcome(group, platform, userProfile, home, isoTime, localTime, writeError)
  {
    var desktopPath := DesktopPath(platform, userProfile, home);
    var l := LauncherFor(platform);
    var fileName := FileName(group.name, l);
    var filePath := Paths.Join(desktopPath, fileName, platform == "win32");
    var content;
    if l == BatchFile {
      content := BatchScript.GenerateBatchFile(group, localTime);
    } else {
      content := ShellScript.GenerateShellScript(group, platform, isoTime, localTime);
    }
    if writeError.Some? {
      return Failed(writeError.value);
    }
    outcome := Created(fileName, filePath, content, l != BatchFile, Message(group.name, l), Instructions(fileName, l));
  }

  predicate NoSeps(s: string, win: bool) {
    forall k :: 0 <= k < |s| ==> !Paths.IsSep(s[k], win)
  }

  lemma NoSepsAppend(a: string, b: string, win: bool)
    requires NoSeps(a, win) && NoSeps(b, win)
    ensures NoSeps(a + b, win)
  {
    assert forall k :: |a| <= k < |a + b| ==> (a + b)[k] == b[k - |a|];
  }

  lemma SuffixNoSeps(l: Launcher, win: bool)
    ensures NoSeps("_tasks" + Extension(l), win)
  {
  }

  /** A launcher's file name holds no path separator. */
  lemma FileNameNoSeps(groupName: string, l: Launcher, win: bool)
    ensures NoSeps(FileName(groupName, l), win)
  {
    SanitizedIsSafe(groupName);
    SuffixNoSeps(l, win);
    NoSepsAppend(SanitizeName(groupName), "_tasks" + Extension(l), win);
  }

  /** The file lands directly in the desktop folder: its name holds no separator
      and the path is the desktop folder, one separator, then the name. */
  lemma FileOnDesktop(group: TaskGroup, platform: string, userProfile: Option<string>, home: Option<string>,
                      isoTime: string, localTime: string)
    ensures var o := ShortcutOutcome(group, platform, userProfile, home, isoTime, localTime, None);
            var win := platform == "win32";
            && o.Created?
            && NoSeps(o.fileName, win)
            && |o.fileName| < |o.path|
            && o.path[|o.path| - |o.fileName|..] == o.fileName
            && o.path[|o.path| - |o.fileName| - 1] == Paths.Sep(win)
  {
    var l := LauncherFor(platform);
    var win := platform == "win32";
    var fileName := FileName(group.name, l);
    var o := ShortcutOutcome(group, platform, userProfile, home, isoTime, localTime, None);
    assert o.fileName == fileName;
    assert o.path == Paths.Join(DesktopPath(platform, userProfile, home), fileName, win);
    FileNameNoSeps(group.name, l, win);
    Paths.JoinEndsWithName(DesktopPath(platform, userProfile, home), fileName, win);
  }

  /** A launcher's file name ends with its extension. */
  lemma FileNameExtension(groupName: string, l: Launcher)
    ensures Text.EndsWith(FileName(groupName, l), Extension(l))
  {
    var f := FileName(groupName, l);
    assert f == (SanitizeName(groupName) + "_tasks") + Extension(l);
    assert f[|f| - |Extension(l)|..] == Extension(l);
  }

  /** With a successful write, the handler answers with the launcher its platform
      gets; `chmod +x` is requested everywhere but on Windows, and its result is
      never looked at. */
  lemma CreatedLauncher(group: TaskGroup, platform: string, userProfile: Option<string>, home: Option<string>,
                        isoTime: string, localTime: string)
    ensures var o := ShortcutOutcome(group, platform, userProfile, home, isoTime, localTime, None);
            var l := LauncherFor(platform);
            && o.Created?
            && Text.EndsWith(o.fileName, Extension(l))
            && o.chmodRequested == (l != BatchFile)
            && o.content == Content(group, platform, isoTime, localTime)
  {
    FileNameExtension(group.name, LauncherFor(platform));
  }

  /** Windows gets a `.bat` file holding the batch script, and no `chmod` is requested. */
  lemma LauncherOnWindows(group: TaskGroup, platform: string, userProfile: Option<string>, home: Option<string>,
                          isoTime: string, localTime: string)
    requires platform == "win32"
    ensures var o := ShortcutOutcome(group, platform, userProfile, home, isoTime, localTime, None);
            && Text.EndsWith(o.fileName, ".bat") && !o.chmodRequested
            && o.content == Lines.Render(BatchScript.BatchLines(group, localTime), BatchScript.EOL)
  {
    CreatedLauncher(group, platform, userProfile, home, isoTime, localTime);
  }

  /** macOS gets a `.command` file holding the shell script, with `chmod +x` requested. */
  lemma LauncherOnMac(group: TaskGroup, platform: string, userProfile: Option<string>, home: Option<string>,
                      isoTime: string, localTime: string)
    requires platform == "darwin"
    ensures var o := ShortcutOutcome(group, platform, userProfile, home, isoTime, localTime, None);
            && Text.EndsWith(o.fileName, ".command") && o.chmodRequested
            && o.content == Lines.Render(ShellScript.ShellLines(group, platform, isoTime, localTime), ShellScript.EOL)
  {
    CreatedLauncher(group, platform, userProfile, home, isoTime, localTime);
  }

  /** Every other platform gets a `.sh` file holding the shell script, with `chmod +x` requested. */
  lemma LauncherElsewhere(group: TaskGroup, platform: string, userProfile: Option<string>, home: Option<string>,
                          isoTime: string, localTime: string)
    requires platform != "win32" && platform != "darwin"
    ensures var o := ShortcutOutcome(group, platform, userProfile, home, isoTime, localTime, None);
            && Text.EndsWith(o.fileName, ".sh") && o.chmodRequested
            && o.content == Lines.Render(ShellScript.ShellLines(group, platform, isoTime, localTime), ShellScript.EOL)
  {
    CreatedLauncher(group, platform, userProfile, home, isoTime, localTime);
  }

  /** A failing write is reported with its own message and nothing else is done;
      the handler fails exactly when the write fails, on every platform. */
  lemma FailuresReported(group: TaskGroup, platform: string, userProfile: Option<string>, home: Option<string>,
                         isoTime: string, localTime: string, writeError: Option<string>)
    ensures var o := ShortcutOutcome(group, platform, userProfile, home, isoTime, localTime, writeError);
            && (writeError.Some? ==> o == Failed(writeError.value))
            && (o.Failed? <==> writeError.Some?)
  {
  }
}
