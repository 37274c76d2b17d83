/** The recursive directory scanners of the Windows program search
    (src/main/index.js): `scanDirectoryRecursively`, `scanDirectoryForPortableApps`
    and `scanStartMenu`. The file system is an abstract tree: what `fs.readdir`
    lists under a directory, with a flag for a directory whose listing throws. */
module Scanners {
  import opened Programs
  import Paths

  /** A directory entry as `readdir({ withFileTypes: true })` reports it: a file, a
      directory (with what listing it yields, unless listing it throws), or
      anything else (a link, a device), which the scanners skip. */
  datatype Entry =
    | File(name: string)
    | Dir(name: string, readable: bool, items: seq<Entry>)
    | Other(name: string)

  /** A file met by a walk: the directory it is in, its name and its depth
      (the scanned directory itself is at the depth the walk starts from). */
  datatype Found = Found(dir: string, name: string, depth: nat)

  // ---- the reference: every file of the tree down to a depth bound ----

  /** The files under a directory at depths `depth` up to `levels - 1`, in the order
      a depth-first walk over the listings meets them. */
  function Walk(dirPath: string, readable: bool, items: seq<Entry>, levels: nat, depth: nat): (r: seq<Found>)
    ensures forall k :: 0 <= k < |r| ==> depth <= r[k].depth < levels
    decreases items, 1
  {
    if depth >= levels || !readable then [] else WalkItems(dirPath, items, levels, depth)
  }

  function WalkItems(dirPath: string, items: seq<Entry>, levels: nat, depth: nat): (r: seq<Found>)
    requires depth < levels
    ensures forall k :: 0 <= k < |r| ==> depth <= r[k].depth < levels
    decreases items, 0
  {
    if items == [] then []
    else WalkItems(dirPath, items[..|items| - 1], levels, depth) + WalkEntry(dirPath, items[|items| - 1], levels, depth)
  }

  function WalkEntry(dirPath: string, e: Entry, levels: nat, depth: nat): (r: seq<Found>)
    requires depth < levels
    ensures forall k :: 0 <= k < |r| ==> depth <= r[k].depth < levels
    decreases e
  {
    match e
    case File(n) => [Found(dirPath, n, depth)]
    case Dir(n, readable, sub) => Walk(Paths.Join(dirPath, n, true), readable, sub, levels, depth + 1)
    case Other(_) => []
  }

  /** The programs the executable scanners make of the files met: one per `.exe`
      file, in order. */
  function ExePrograms(fs: seq<Found>, kind: string): (r: seq<Program>)
    ensures |r| <= |fs|
    ensures forall k :: 0 <= k < |r| ==> r[k].kind == kind && !r[k].working
  {
    if fs == [] then []
    else
      var f := fs[|fs| - 1];
      ExePrograms(fs[..|fs| - 1], kind)
      + (if IsExeName(f.name) then [Program(StripExe(f.name), Paths.Join(f.dir, f.name, true), kind, false)] else [])
  }

  lemma {:induction false} ExeProgramsAppend(a: seq<Found>, b: seq<Found>, kind: string)
    ensures ExePrograms(a + b, kind) == ExePrograms(a, kind) + ExePrograms(b, kind)
    decreases |b|
  {
    if b == [] {
      assert a + b == a;
    } else {
      assert (a + b)[..|a + b| - 1] == a + b[..|b| - 1];
      ExeProgramsAppend(a, b[..|b| - 1], kind);
    }
  }

  // ---- scanDirectoryRecursively / scanDirectoryForPortableApps ----

  /** What one call of the executable scanner pushes, as written: nothing at or
      beyond `maxDepth` or for an unreadable directory; each `.exe` file of the
      listing; and the subdirectories' finds, entered only while
      `depth < maxDepth - 1`. */
  function ExeScan(dirPath: string, readable: bool, items: seq<Entry>, maxDepth: nat, depth: nat, kind: string): seq<Program>
    decreases items, 1
  {
    if depth >= maxDepth || !readable then [] else ExeScanItems(dirPath, items, maxDepth, depth, kind)
  }

  function ExeScanItems(dirPath: string, items: seq<Entry>, maxDepth: nat, depth: nat, kind: string): seq<Program>
    decreases items, 0
  {
    if items == [] then []
    else ExeScanItems(dirPath, items[..|items| - 1], maxDepth, depth, kind)
         + ExeScanEntry(dirPath, items[|items| - 1], maxDepth, depth, kind)
  }

  function ExeScanEntry(dirPath: string, e: Entry, maxDepth: nat, depth: nat, kind: string): seq<Program>
    decreases e
  {
    var fullPath := Paths.Join(dirPath, e.name, true);
    match e
    case File(n) => if IsExeName(n) then [Program(StripExe(n), fullPath, kind, false)] else []
    case Dir(_, readable, sub) =>
      if depth < maxDepth - 1 then ExeScan(fullPath, readable, sub, maxDepth, depth + 1, kind) else []
    case Other(_) => []
  }

  /** The scanner reports exactly the `.exe` files at depths `depth` to
      `maxDepth - 1`, in walk order; the second depth test before recursing never
      changes the outcome. */
  lemma {:induction false} ExeScanIsWalk(dirPath: string, readable: bool, items: seq<Entry>, maxDepth: nat, depth: nat, kind: string)
    ensures ExeScan(dirPath, readable, items, maxDepth, depth, kind)
            == ExePrograms(Walk(dirPath, readable, items, maxDepth, depth), kind)
    decreases items, 1
  {
    if depth < maxDepth && readable {
      ExeScanItemsIsWalk(dirPath, items, maxDepth, depth, kind);
    }
  }

  lemma {:induction false} ExeScanItemsIsWalk(dirPath: string, items: seq<Entry>, maxDepth: nat, depth: nat, kind: string)
    requires depth < maxDepth
    ensures ExeScanItems(dirPath, items, maxDepth, depth, kind)
            == ExePrograms(WalkItems(dirPath, items, maxDepth, depth), kind)
    decreases items, 0
  {
    if items != [] {
      var init := items[..|items| - 1];
      var last := items[|items| - 1];
      ExeScanItemsIsWalk(dirPath, init, maxDepth, depth, kind);
      ExeScanEntryIsWalk(dirPath, last, maxDepth, depth, kind);
      ExeProgramsAppend(WalkItems(dirPath, init, maxDepth, depth), WalkEntry(dirPath, last, maxDepth, depth), kind);
    }
  }

  lemma {:induction false} ExeScanEntryIsWalk(dirPath: string, e: Entry, maxDepth: nat, depth: nat, kind: string)
    requires depth < maxDepth
    ensures ExeScanEntry(dirPath, e, maxDepth, depth, kind)
            == ExePrograms(WalkEntry(dirPath, e, maxDepth, depth), kind)
    decreases e
  {
    match e
    case File(n) =>
      assert [Found(dirPath, n, depth)][..0] == [];
    case Dir(n, readable, sub) =>
      ExeScanIsWalk(Paths.Join(dirPath, n, true), readable, sub, maxDepth, depth + 1, kind);
    case Other(_) =>
  }

  /** A scan that starts at or beyond its depth bound reads nothing. */
  lemma ExeScanAtBound(dirPath: string, readable: bool, items: seq<Entry>, maxDepth: nat, depth: nat, kind: string)
    requires depth >= maxDepth
    ensures ExeScan(dirPath, readable, items, maxDepth, depth, kind) == []
  {
  }

  /** `p` is what the executable scanners make of the file `f`. */
  predicate MadeFrom(p: Program, f: Found) {
    IsExeName(f.name) && p.name == StripExe(f.name) && p.path == Paths.Join(f.dir, f.name, true)
  }

  /** Every program the scanner reports comes from an `.exe` file the walk meets
      within the depth bound: its name is that file's name without `.exe`, its
      path the file's path. */
  lemma ExeScanSources(dirPath: string, readable: bool, items: seq<Entry>, maxDepth: nat, depth: nat, kind: string)
    ensures var r := ExeScan(dirPath, readable, items, maxDepth, depth, kind);
            var w := Walk(dirPath, readable, items, maxDepth, depth);
            forall k :: 0 <= k < |r| ==>
              && r[k].kind == kind
              && exists j :: 0 <= j < |w| && depth <= w[j].depth < maxDepth && MadeFrom(r[k], w[j])
  {
    ExeScanIsWalk(dirPath, readable, items, maxDepth, depth, kind);
    ExeProgramsSources(Walk(dirPath, readable, items, maxDepth, depth), kind);
  }

  lemma {:induction false} ExeProgramsSources(fs: seq<Found>, kind: string)
    ensures forall k :: 0 <= k < |ExePrograms(fs, kind)| ==>
              exists j :: 0 <= j < |fs| && MadeFrom(ExePrograms(fs, kind)[k], fs[j])
  {
    if fs != [] {
      var init := fs[..|fs| - 1];
      ExeProgramsSources(init, kind);
      var r := ExePrograms(fs, kind);
      var r0 := ExePrograms(init, kind);
      forall k | 0 <= k < |r|
        ensures exists j :: 0 <= j < |fs| && MadeFrom(r[k], fs[j])
      {
        if k < |r0| {
          assert r[k] == r0[k];
          var j :| 0 <= j < |init| && MadeFrom(r0[k], init[j]);
          assert fs[j] == init[j];
        } else {
          assert MadeFrom(r[k], fs[|fs| - 1]);
        }
      }
    } else {
      assert ExePrograms(fs, kind) == [];
    }
  }

  lemma ExeScanItemsSnoc(dirPath: string, items: seq<Entry>, maxDepth: nat, depth: nat, kind: string, i: nat)
    requires i < |items|
    ensures ExeScanItems(dirPath, items[..i + 1], maxDepth, depth, kind)
            == ExeScanItems(dirPath, items[..i], maxDepth, depth, kind) + ExeScanEntry(dirPath, items[i], maxDepth, depth, kind)
  {
    assert items[..i + 1][..i] == items[..i];
  }

  /** `scanDirectoryRecursively(dirPath, programs, maxDepth, currentDepth)` and
      `scanDirectoryForPortableApps`, which differ only in the type they record:
      push each `.exe` file of the listing and recurse into subdirectories while
      `currentDepth < maxDepth - 1`. A listing that throws pushes nothing. */
  method ScanForExecutables(dirPath: string, readable: bool, items: seq<Entry>, programs: ProgramList,
                            maxDepth: nat, currentDepth: nat, kind: string)
    modifies programs
    ensures programs.items == old(programs.items) + ExeScan(dirPath, readable, items, maxDepth, currentDepth, kind)
    decreases items, 2
  {
    if currentDepth < maxDepth && readable {
      ScanItemsForExecutables(dirPath, items, programs, maxDepth, currentDepth, kind);
    } else {
      assert ExeScan(dirPath, readable, items, maxDepth, currentDepth, kind) == [];
    }
  }

  /** The scanner's loop over a listing it could read. */
  method ScanItemsForExecutables(dirPath: string, items: seq<Entry>, programs: ProgramList,
                                 maxDepth: nat, currentDepth: nat, kind: string)
    modifies programs
    ensures programs.items == old(programs.items) + ExeScanItems(dirPath, items, maxDepth, currentDepth, kind)
    decreases items, 1
  {
    ghost var start := programs.items;
    var i := 0;
    while i < |items|
      invariant 0 <= i <= |items|
      invariant programs.items == start + ExeScanItems(dirPath, items[..i], maxDepth, currentDepth, kind)
    {
      ghost var done := ExeScanItems(dirPath, items[..i], maxDepth, currentDepth, kind);
      ExeScanItemsSnoc(dirPath, items, maxDepth, currentDepth, kind, i);
      ScanEntryForExecutables(dirPath, items[i], programs, maxDepth, currentDepth, kind);
      assert programs.items == start + (done + ExeScanEntry(dirPath, items[i], maxDepth, currentDepth, kind));
      i := i + 1;
    }
    assert items[..i] == items;
  }

  /** The body of the scanner's loop for one entry of the listing. */
  method ScanEntryForExecutables(dirPath: string, item: Entry, programs: ProgramList,
                                 maxDepth: nat, currentDepth: nat, kind: string)
    modifies programs
    ensures programs.items == old(programs.items) + ExeScanEntry(dirPath, item, maxDepth, currentDepth, kind)
    decreases item
  {
    var fullPath := Paths.Join(dirPath, item.name, true);
    match item {
      case File(n) =>
        if IsExeName(n) {
          programs.Push(Program(StripExe(n), fullPath, kind, false));
        }
      case Dir(_, subReadable, sub) =>
        if currentDepth < maxDepth - 1 {
          ScanForExecutables(fullPath, subReadable, sub, programs, maxDepth, currentDepth + 1, kind);
        }
      case Other(_) =>
    }
  }

  /** `scanDirectoryRecursively`: executables, bounded by `maxDepth`. */
  method ScanDirectoryRecursively(dirPath: string, readable: bool, items: seq<Entry>, programs: ProgramList,
                                  maxDepth: nat, currentDepth: nat)
    modifies programs
    ensures programs.items == old(programs.items) + ExeScan(dirPath, readable, items, maxDepth, currentDepth, Executable)
  {
    ScanForExecutables(dirPath, readable, items, programs, maxDepth, currentDepth, Executable);
  }

  /** `scanDirectoryForPortableApps`: portable apps, two levels by default. */
  method ScanDirectoryForPortableApps(dirPath: string, readable: bool, items: seq<Entry>, programs: ProgramList)
    modifies programs
    ensures programs.items == old(programs.items) + ExeScan(dirPath, readable, items, 2, 0, PortableApp)
  {
    ScanForExecutables(dirPath, readable, items, programs, 2, 0, PortableApp);
  }

  // ---- scanStartMenu ----

  /** How deep the directories of a listing nest. */
  function Height(items: seq<Entry>): nat
    decreases items, 0
  {
    if items == [] then 0
    else
      var a := Height(items[..|items| - 1]);
      var b := EntryHeight(items[|items| - 1]);
      if a < b then b else a
  }

  function EntryHeight(e: Entry): nat
    decreases e
  {
    match e
    case Dir(_, _, sub) => 1 + Height(sub)
    case _ => 0
  }

  /** What the Start Menu scan makes of one file: a shortcut for a `.lnk` name, else
      an executable for a `.exe` name, else nothing. */
  function StartMenuProgram(dirPath: string, n: string): seq<Program> {
    var fullPath := Paths.Join(dirPath, n, true);
    if IsLnkName(n) then [Program(StripLnk(n), fullPath, Shortcut, false)]
    else if IsExeName(n) then [Program(StripExe(n), fullPath, Executable, false)]
    else []
  }

  function StartMenuPrograms(fs: seq<Found>): seq<Program> {
    if fs == [] then []
    else StartMenuPrograms(fs[..|fs| - 1]) + StartMenuProgram(fs[|fs| - 1].dir, fs[|fs| - 1].name)
  }

  lemma {:induction false} StartMenuProgramsAppend(a: seq<Found>, b: seq<Found>)
    ensures StartMenuPrograms(a + b) == StartMenuPrograms(a) + StartMenuPrograms(b)
    decreases |b|
  {
    if b == [] {
      assert a + b == a;
    } else {
      assert (a + b)[..|a + b| - 1] == a + b[..|b| - 1];
      StartMenuProgramsAppend(a, b[..|b| - 1]);
    }
  }

  /** What one call of `scanStartMenu` pushes, as written: every file of the
      listing classified by `StartMenuProgram`, and every subdirectory's finds,
      with no depth bound. */
  function StartMenuScan(dirPath: string, readable: bool, items: seq<Entry>): seq<Program>
    decreases items, 1
  {
    if !readable then [] else StartMenuItems(dirPath, items)
  }

  function StartMenuItems(dirPath: string, items: seq<Entry>): seq<Program>
    decreases items, 0
  {
    if items == [] then []
    else StartMenuItems(dirPath, items[..|items| - 1]) + StartMenuEntry(dirPath, items[|items| - 1])
  }

  function StartMenuEntry(dirPath: string, e: Entry): seq<Program>
    decreases e
  {
    match e
    case File(n) => StartMenuProgram(dirPath, n)
    case Dir(n, readable, sub) => StartMenuScan(Paths.Join(dirPath, n, true), readable, sub)
    case Other(_) => []
  }

  /** With no depth bound the Start Menu scan classifies every file of the whole
      tree, in walk order: a walk bounded below the deepest nesting meets them all. */
  lemma {:induction false} StartMenuScanIsWalk(dirPath: string, readable: bool, items: seq<Entry>, levels: nat, depth: nat)
    requires depth + Height(items) < levels
    ensures StartMenuScan(dirPath, readable, items) == StartMenuPrograms(Walk(dirPath, readable, items, levels, depth))
    decreases items, 1
  {
    if readable {
      StartMenuItemsIsWalk(dirPath, items, levels, depth);
    }
  }

  lemma {:induction false} StartMenuItemsIsWalk(dirPath: string, items: seq<Entry>, levels: nat, depth: nat)
    requires depth + Height(items) < levels
    ensures StartMenuItems(dirPath, items) == StartMenuPrograms(WalkItems(dirPath, items, levels, depth))
    decreases items, 0
  {
    if items != [] {
      var init := items[..|items| - 1];
      var last := items[|items| - 1];
      StartMenuItemsIsWalk(dirPath, init, levels, depth);
      StartMenuEntryIsWalk(dirPath, last, levels, depth);
      StartMenuProgramsAppend(WalkItems(dirPath, init, levels, depth), WalkEntry(dirPath, last, levels, depth));
    }
  }

  lemma {:induction false} StartMenuEntryIsWalk(dirPath: string, e: Entry, levels: nat, depth: nat)
    requires depth + EntryHeight(e) < levels
    ensures StartMenuEntry(dirPath, e) == StartMenuPrograms(WalkEntry(dirPath, e, levels, depth))
    decreases e
  {
    match e
    case File(n) =>
      assert [Found(dirPath, n, depth)][..0] == [];
    case Dir(n, readable, sub) =>
      StartMenuScanIsWalk(Paths.Join(dirPath, n, true), readable, sub, levels, depth + 1);
    case Other(_) =>
  }

  /** A name ending in `.lnk` is always taken as a shortcut, whatever else it holds. */
  lemma ShortcutFirst(dirPath: string, n: string)
    requires IsLnkName(n)
    ensures StartMenuProgram(dirPath, n) == [Program(StripLnk(n), Paths.Join(dirPath, n, true), Shortcut, false)]
  {
  }

  lemma StartMenuItemsSnoc(dirPath: string, items: seq<Entry>, i: nat)
    requires i < |items|
    ensures StartMenuItems(dirPath, items[..i + 1]) == StartMenuItems(dirPath, items[..i]) + StartMenuEntry(dirPath, items[i])
  {
    assert items[..i + 1][..i] == items[..i];
  }

  /** `scanStartMenu(startMenuPath, programs)`. */
  method ScanStartMenu(startMenuPath: string, readable: bool, items: seq<Entry>, programs: ProgramList)
    modifies programs
    ensures programs.items == old(programs.items) + StartMenuScan(startMenuPath, readable, items)
    decreases items, 2
  {
    if readable {
      ScanStartMenuItems(startMenuPath, items, programs);
    } else {
      assert StartMenuScan(startMenuPath, readable, items) == [];
    }
  }

  /** `scanStartMenu`'s loop over a listing it could read. */
  method ScanStartMenuItems(startMenuPath: string, items: seq<Entry>, programs: ProgramList)
    modifies programs
    ensures programs.items == old(programs.items) + StartMenuItems(startMenuPath, items)
    decreases items, 1
  {
    ghost var start := programs.items;
    var i := 0;
    while i < |items|
      invariant 0 <= i <= |items|
      invariant programs.items == start + StartMenuItems(startMenuPath, items[..i])
    {
      ghost var done := StartMenuItems(startMenuPath, items[..i]);
      StartMenuItemsSnoc(startMenuPath, items, i);
      ScanStartMenuEntry(startMenuPath, items[i], programs);
      assert programs.items == start + (done + StartMenuEntry(startMenuPath, items[i]));
      i := i + 1;
    }
    assert items[..i] == items;
  }

  /** The body of `scanStartMenu`'s loop for one entry. */
  method ScanStartMenuEntry(startMenuPath: string, item: Entry, programs: ProgramList)
    modifies programs
    ensures programs.items == old(programs.items) + StartMenuEntry(startMenuPath, item)
    decreases item
  {
    var fullPath := Paths.Join(startMenuPath, item.name, true);
    match item {
      case File(n) =>
        if IsLnkName(n) {
          programs.Push(Program(StripLnk(n), fullPath, Shortcut, false));
        } else if IsExeName(n) {
          programs.Push(Program(StripExe(n), fullPath, Executable, false));
        }
      case Dir(_, subReadable, sub) =>
        ScanStartMenu(fullPath, subReadable, sub, programs);
      case Other(_) =>
    }
  }
}
