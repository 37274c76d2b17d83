/** `path.join` of two parts, as the main process uses it to build file paths. */
module Paths {

  /** A path separator: `/` everywhere, and `\` too on Windows. */
  predicate IsSep(c: char, win: bool) {
    c == '/' || (win && c == '\\')
  }

  /** The separator `path.join` writes. */
  function Sep(win: bool): char {
    if win then '\\' else '/'
  }

  function DropTrailingSeps(s: string, win: bool): (r: string)
    ensures |r| <= |s| && r == s[..|r|]
    ensures r == [] || !IsSep(r[|r| - 1], win)
  {
    if |s| > 0 && IsSep(s[|s| - 1], win) then DropTrailingSeps(s[..|s| - 1], win) else s
  }

  function DropLeadingSeps(s: string, win: bool): (r: string)
    ensures |r| <= |s| && r == s[|s| - |r|..]
    ensures r == [] || !IsSep(r[0], win)
  {
    if |s| > 0 && IsSep(s[0], win) then DropLeadingSeps(s[1..], win) else s
  }

  /** `path.join(a, b)`: the two parts with exactly one separator between them.
      An empty part leaves the other one as it is. */
  function Join(a: string, b: string, win: bool): string {
    if a == [] then b
    else if b == [] then a
    else DropTrailingSeps(a, win) + [Sep(win)] + DropLeadingSeps(b, win)
  }

  /** Joining onto a non-empty directory a name that does not open with a
      separator puts the name last, right after one separator. */
  lemma JoinEndsWithName(a: string, b: string, win: bool)
    requires a != [] && b != [] && !IsSep(b[0], win)
    ensures var r := Join(a, b, win);
            |b| < |r| && r[|r| - |b|..] == b && r[|r| - |b| - 1] == Sep(win)
  {
    assert DropLeadingSeps(b, win) == b;
    var head := DropTrailingSeps(a, win) + [Sep(win)];
    assert Join(a, b, win) == head + b;
    assert (head + b)[|head|..] == b;
  }

  /** An empty part leaves the other one as it is. */
  lemma JoinEmpty(a: string, b: string, win: bool)
    ensures Join("", b, win) == b && Join(a, "", win) == a
  {
  }
}
