/** `createWorkingShortcuts` and `findAlternativePath` (src/main/index.js). The
    `where` command is the oracle `where`: `None` when it fails, else its
    standard output; `fs.access` is the oracle `present`. */
module Working {
  import opened Options
  import opened Programs
  import Text
  import Seqs
  import Popular

  /** `stdout.trim().split('\n')[0]` when the trimmed output is not empty. */
  function WhereFirstLine(stdout: string): (r: Option<string>)
    ensures r.None? <==> Text.Trim(stdout) == []
    ensures r.Some? ==> r.value != [] && '\n' !in r.value && Text.StartsWith(Text.Trim(stdout), r.value)
  {
    var t := Text.Trim(stdout);
    if t == [] then None
    else
      Text.TrimSpec(stdout);
      assert t[0] != '\n';
      Some(Text.BeforeChar(t, '\n'))
  }

  /** The four install locations tried after `where`, in order. */
  function AlternativePaths(appName: string, localAppData: Option<string>, appData: Option<string>): seq<string> {
    var file := "\\" + appName + "\\" + appName + ".exe";
    [ "C:\\Program Files" + file, "C:\\Program Files (x86)" + file,
      Popular.EnvText(localAppData) + file, Popular.EnvText(appData) + file ]
  }

  /** The first of `paths` that exists. */
  function FirstExisting(paths: seq<string>, present: string -> bool): (r: Option<string>)
    ensures r.None? <==> forall k :: 0 <= k < |paths| ==> !present(paths[k])
    ensures r.Some? ==> exists k :: 0 <= k < |paths| && paths[k] == r.value && present(r.value)
                                    && forall j :: 0 <= j < k ==> !present(paths[j])
  {
    if paths == [] then None
    else if present(paths[0]) then Some(paths[0])
    else
      var r := FirstExisting(paths[1..], present);
      assert forall k :: 1 <= k < |paths| ==> paths[k] == paths[1..][k - 1];
      if r.Some? then
        var k :| 0 <= k < |paths[1..]| && paths[1..][k] == r.value && present(r.value)
                 && forall j :: 0 <= j < k ==> !present(paths[1..][j]);
        assert paths[k + 1] == r.value;
        r
      else r
  }

  /** `findAlternativePath(appName)`: the first line `where` prints for the
      lower-cased name, if it prints anything but whitespace; otherwise the first
      alternative install location that exists; otherwise nothing (`null`). */
  function AlternativePath(appName: string, where: string -> Option<string>, present: string -> bool,
                           localAppData: Option<string>, appData: Option<string>): Option<string>
  {
    var out := where(Text.ToLower(appName));
    if out.Some? && WhereFirstLine(out.value).Some? then WhereFirstLine(out.value)
    else FirstExisting(AlternativePaths(appName, localAppData, appData), present)
  }

  /** The alternative path is `where`'s answer when it has one, else an existing
      install location, and nothing only when neither gives anything. */
  lemma AlternativePathSpec(appName: string, where: string -> Option<string>, present: string -> bool,
                            localAppData: Option<string>, appData: Option<string>)
    ensures var r := AlternativePath(appName, where, present, localAppData, appData);
            var out := where(Text.ToLower(appName));
            var alts := AlternativePaths(appName, localAppData, appData);
            && (out.Some? && Text.Trim(out.value) != [] ==> r == WhereFirstLine(out.value))
            && (r.None? <==> (out.None? || Text.Trim(out.value) == []) && forall k :: 0 <= k < 4 ==> !present(alts[k]))
            && (r.Some? ==> r.value != [])
  {
  }

  /** The loop of `findAlternativePath` over the install locations. */
  method FindAlternativePath(appName: string, where: string -> Option<string>, present: string -> bool,
                             localAppData: Option<string>, appData: Option<string>) returns (r: Option<string>)
    ensures r == AlternativePath(appName, where, present, localAppData, appData)
  {
    var out := where(Text.ToLower(appName));
    if out.Some? && Text.Trim(out.value) != [] {
      return WhereFirstLine(out.value);
    }
    var paths := AlternativePaths(appName, localAppData, appData);
    for i := 0 to |paths|
      invariant FirstExisting(paths, present) == FirstExisting(paths[i..], present)
    {
      assert paths[i..][1..] == paths[i + 1..];
      if present(paths[i]) {
        return Some(paths[i]);
      }
    }
    return None;
  }

  predicate NotPopular(p: Program) {
    p.kind != PopularApp
  }

  /** What `createWorkingShortcuts` keeps of one program: any program but a popular
      app unchanged; a popular app whose path exists with `working` set; one whose
      path does not, moved to its alternative path with `working` set, or dropped
      when there is none. */
  function WorkingEntry(p: Program, alternative: string -> Option<string>, present: string -> bool): (r: seq<Program>)
    ensures |r| <= 1
  {
    if p.kind != PopularApp then [p]
    else if present(p.path) then [Program(p.name, p.path, PopularApp, true)]
    else
      match alternative(p.name)
      case Some(alt) => [Program(p.name, alt, PopularApp, true)]
      case None => []
  }

  function WorkingPrograms(ps: seq<Program>, alternative: string -> Option<string>, present: string -> bool): (r: seq<Program>)
    ensures |r| <= |ps|
  {
    if ps == [] then []
    else WorkingPrograms(ps[..|ps| - 1], alternative, present) + WorkingEntry(ps[|ps| - 1], alternative, present)
  }

  lemma {:induction false} WorkingAppend(a: seq<Program>, b: seq<Program>, alternative: string -> Option<string>, present: string -> bool)
    ensures WorkingPrograms(a + b, alternative, present) == WorkingPrograms(a, alternative, present) + WorkingPrograms(b, alternative, present)
    decreases |b|
  {
    if b == [] {
      assert a + b == a;
    } else {
      assert (a + b)[..|a + b| - 1] == a + b[..|b| - 1];
      WorkingAppend(a, b[..|b| - 1], alternative, present);
    }
  }

  lemma {:induction false} OthersUnchangedEntry(p: Program, alternative: string -> Option<string>, present: string -> bool)
    ensures Seqs.Filter(WorkingEntry(p, alternative, present), NotPopular) == Seqs.Filter([p], NotPopular)
  {
    var e := WorkingEntry(p, alternative, present);
    assert [p][..0] == [];
    if e != [] {
      assert e[..0] == [];
    }
  }

  /** Programs other than popular apps pass through unchanged and in order. */
  lemma {:induction false} OthersUnchanged(ps: seq<Program>, alternative: string -> Option<string>, present: string -> bool)
    ensures Seqs.Filter(WorkingPrograms(ps, alternative, present), NotPopular) == Seqs.Filter(ps, NotPopular)
  {
    if ps != [] {
      var init := ps[..|ps| - 1];
      var p := ps[|ps| - 1];
      var w := WorkingPrograms(init, alternative, present);
      var e := WorkingEntry(p, alternative, present);
      assert WorkingPrograms(ps, alternative, present) == w + e;
      OthersUnchanged(init, alternative, present);
      Seqs.FilterAppend(w, e, NotPopular);
      assert ps == init + [p];
      Seqs.FilterAppend(init, [p], NotPopular);
      OthersUnchangedEntry(p, alternative, present);
    }
  }

  /** Every popular app kept carries `working: true` and a path that exists or
      that the alternative search gave for its name. */
  lemma {:induction false} PopularKeptWorking(ps: seq<Program>, alternative: string -> Option<string>, present: string -> bool)
    ensures forall k :: 0 <= k < |WorkingPrograms(ps, alternative, present)| ==>
              var q := WorkingPrograms(ps, alternative, present)[k];
              q.kind == PopularApp ==> q.working && (present(q.path) || alternative(q.name) == Some(q.path))
  {
    if ps != [] {
      PopularKeptWorking(ps[..|ps| - 1], alternative, present);
    }
  }

  /** A program is dropped only when it is a popular app with neither an existing
      path nor an alternative: nothing is lost exactly when every popular app has one. */
  lemma {:induction false} NothingDroppedIff(ps: seq<Program>, alternative: string -> Option<string>, present: string -> bool)
    ensures |WorkingPrograms(ps, alternative, present)| == |ps|
            <==> forall k :: 0 <= k < |ps| && ps[k].kind == PopularApp ==>
                   present(ps[k].path) || alternative(ps[k].name).Some?
  {
    if ps != [] {
      var init := ps[..|ps| - 1];
      NothingDroppedIff(init, alternative, present);
      assert forall k :: 0 <= k < |init| ==> ps[k] == init[k];
    }
  }

  /** The alternative search `createWorkingShortcuts` applies to a missing app. */
  function AlternativeSearch(where: string -> Option<string>, present: string -> bool,
                             localAppData: Option<string>, appData: Option<string>): string -> Option<string>
  {
    name => AlternativePath(name, where, present, localAppData, appData)
  }

  /** The loop body of `createWorkingShortcuts`: what one program contributes. */
  method WorkingEntryOf(program: Program, where: string -> Option<string>, present: string -> bool,
                        localAppData: Option<string>, appData: Option<string>)
    returns (entry: seq<Program>)
    ensures entry == WorkingEntry(program, AlternativeSearch(where, present, localAppData, appData), present)
  {
    if program.kind == PopularApp {
      if present(program.path) {
        entry := [Program(program.name, program.path, PopularApp, true)];
      } else {
        var alternativePath := FindAlternativePath(program.name, where, present, localAppData, appData);
        if alternativePath.Some? {
          entry := [Program(program.name, alternativePath.value, PopularApp, true)];
        } else {
          entry := [];
        }
      }
    } else {
      entry := [program];
    }
  }

  /** `createWorkingShortcuts(programs)`: one pass pushing what each program keeps. */
  method CreateWorkingShortcuts(programs: seq<Program>, where: string -> Option<string>, present: string -> bool,
                                localAppData: Option<string>, appData: Option<string>)
    returns (workingPrograms: seq<Program>)
    ensures workingPrograms
            == WorkingPrograms(programs, AlternativeSearch(where, present, localAppData, appData), present)
  {
    var alternative := AlternativeSearch(where, present, localAppData, appData);
    workingPrograms := [];
    for i := 0 to |programs|
      invariant workingPrograms == WorkingPrograms(programs[..i], alternative, present)
    {
      assert programs[..i + 1][..i] == programs[..i];
      var entry := WorkingEntryOf(programs[i], where, present, localAppData, appData);
      workingPrograms := workingPrograms + entry;
    }
    assert programs[..|programs|] == programs;
  }
}
