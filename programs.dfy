/** The entries the program scanners report, and the list they push them into. */
module Programs {
  import Text

  /** One discovered program. `working` is the flag `createWorkingShortcuts`
      adds to the popular apps it keeps; `false` stands for an entry without it. */
  datatype Program = Program(name: string, path: string, kind: string, working: bool)

  const Executable := "executable"
  const Shortcut := "shortcut"
  const ModernApp := "modern-app"
  const PopularApp := "popular-app"
  const PortableApp := "portable-app"

  /** A file name that `name.toLowerCase().endsWith('.exe')` accepts. */
  predicate IsExeName(name: string) {
    Text.EndsWith(Text.ToLower(name), ".exe")
  }

  /** A file name that `name.toLowerCase().endsWith('.lnk')` accepts. */
  predicate IsLnkName(name: string) {
    Text.EndsWith(Text.ToLower(name), ".lnk")
  }

  /** The display name of an executable: `name.replace('.exe', '')`, which removes
      only the first, case-sensitive occurrence. */
  function StripExe(name: string): string {
    Text.ReplaceFirst(name, ".exe", "")
  }

  /** The display name of a shortcut: `name.replace('.lnk', '')`. */
  function StripLnk(name: string): string {
    Text.ReplaceFirst(name, ".lnk", "")
  }

  /** An upper-case extension is recognised but not removed. */
  lemma StripExeKeepsUpperCase()
    ensures IsExeName("APP.EXE") && StripExe("APP.EXE") == "APP.EXE"
  {
    var s := "APP.EXE";
    assert Text.ToLower(s) == "app.exe";
    forall k | 0 <= k && k + 4 <= |s|
      ensures !Text.OccursAt(s, ".exe", k)
    {
      assert s[k..k + 4][1] == s[k + 1] != 'e';
    }
  }

  /** Only the first `.exe` is removed: in a name whose stem holds no dot,
      everything after the stem's `.exe`, another `.exe` included, is kept. */
  lemma StripExeFirstOnly(stem: string, rest: string)
    requires forall k :: 0 <= k < |stem| ==> stem[k] != '.'
    ensures StripExe(stem + ".exe" + rest) == stem + rest
  {
    var s := stem + ".exe" + rest;
    FirstExeAfterStem(stem, rest);
    assert s[..|stem|] == stem && s[|stem| + 4..] == rest;
  }

  /** The first `.exe` of such a name is the one right after the stem. */
  lemma FirstExeAfterStem(stem: string, rest: string)
    requires forall k :: 0 <= k < |stem| ==> stem[k] != '.'
    ensures Text.IndexOf(stem + ".exe" + rest, ".exe", 0) == |stem|
  {
    var s := stem + ".exe" + rest;
    var i := |stem|;
    assert s[i..i + 4] == ".exe";
    forall k | 0 <= k < i
      ensures !Text.OccursAt(s, ".exe", k)
    {
      assert s[k] == stem[k];
      if Text.OccursAt(s, ".exe", k) {
        Text.OccursAtHead(s, ".exe", k);
      }
    }
    Text.IndexOfFirst(s, ".exe", i);
  }

  /** The array the scanners share: each scanner pushes what it finds onto the
      end, in the order it finds it. */
  class ProgramList {
    var items: seq<Program>

    constructor ()
      ensures items == []
    {
      items := [];
    }

    method Push(p: Program)
      modifies this
      ensures items == old(items) + [p]
    {
      items := items + [p];
    }
  }
}
