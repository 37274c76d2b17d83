/** Text assembled line by line, as both shortcut-script generators do it: every
    line is followed by the end-of-line marker (CRLF for batch files, LF for shell
    scripts). The helpers here render a list of lines and count or select lines. */
module Lines {
  import Text

  /** The forty-character `=` rule both generators print around their banners. */
  const Rule: string := "==========" + "==========" + "==========" + "=========="

  /** The text of `lines`, each followed by `eol`. */
  function Render(lines: seq<string>, eol: string): string
  {
    if lines == [] then "" else Render(lines[..|lines| - 1], eol) + lines[|lines| - 1] + eol
  }

  /** Rendering distributes over concatenation of line lists. */
  lemma {:induction false} RenderAppend(a: seq<string>, b: seq<string>, eol: string)
    ensures Render(a + b, eol) == Render(a, eol) + Render(b, eol)
    decreases |b|
  {
    if b != [] {
      var b' := b[..|b| - 1];
      assert (a + b)[..|a + b| - 1] == a + b';
      RenderAppend(a, b', eol);
    } else {
      assert a + b == a;
    }
  }

  lemma RenderAppend3(a: seq<string>, b: seq<string>, c: seq<string>, eol: string)
    ensures Render(a + b + c, eol) == Render(a, eol) + Render(b, eol) + Render(c, eol)
  {
    RenderAppend(a, b, eol);
    RenderAppend(a + b, c, eol);
  }

  /** A rendered text begins with its first line and its end marker, and ends
      with its last line and its end marker. */
  lemma {:induction false} RenderFraming(lines: seq<string>, eol: string)
    requires |lines| > 0
    ensures Text.StartsWith(Render(lines, eol), lines[0] + eol)
    ensures Text.EndsWith(Render(lines, eol), lines[|lines| - 1] + eol)
  {
    assert lines == [lines[0]] + lines[1..];
    RenderAppend([lines[0]], lines[1..], eol);
    assert Render([lines[0]], eol) == lines[0] + eol by {
      assert [lines[0]][..0] == [];
    }
  }

  /** `base` followed by every line of `lines`, each with `eol`, appended one at a
      time with `+=`. */
  method AppendLines(base: string, lines: seq<string>, eol: string) returns (r: string)
    ensures r == base + Render(lines, eol)
  {
    r := base;
    var j := 0;
    while j < |lines|
      invariant 0 <= j <= |lines|
      invariant r == base + Render(lines[..j], eol)
    {
      assert lines[..j + 1][..j] == lines[..j];
      r := r + lines[j] + eol;
      j := j + 1;
    }
    assert lines[..j] == lines;
  }

  /** The lines of `lines` that begin with `prefix`, in order. */
  function WithPrefix(lines: seq<string>, prefix: string): (r: seq<string>)
    ensures |r| <= |lines|
    ensures forall k :: 0 <= k < |r| ==> Text.StartsWith(r[k], prefix) && r[k] in lines
  {
    if lines == [] then []
    else
      var rest := WithPrefix(lines[..|lines| - 1], prefix);
      if Text.StartsWith(lines[|lines| - 1], prefix) then rest + [lines[|lines| - 1]] else rest
  }

  /** Selecting by prefix distributes over concatenation. */
  lemma {:induction false} WithPrefixAppend(a: seq<string>, b: seq<string>, prefix: string)
    ensures WithPrefix(a + b, prefix) == WithPrefix(a, prefix) + WithPrefix(b, prefix)
    decreases |b|
  {
    if b != [] {
      var b' := b[..|b| - 1];
      assert (a + b)[..|a + b| - 1] == a + b';
      WithPrefixAppend(a, b', prefix);
    } else {
      assert a + b == a;
    }
  }

  /** A one-line list is selected exactly when its line has the prefix. */
  lemma WithPrefixSingle(line: string, prefix: string)
    ensures WithPrefix([line], prefix) == if Text.StartsWith(line, prefix) then [line] else []
  {
    assert [line][..0] == [];
  }

  /** When the line at `j` is the only one with the prefix, it is all that is selected. */
  lemma {:induction false} WithPrefixOnlyAt(lines: seq<string>, prefix: string, j: nat)
    requires j < |lines| && Text.StartsWith(lines[j], prefix)
    requires forall k :: 0 <= k < |lines| && k != j ==> !Text.StartsWith(lines[k], prefix)
    ensures WithPrefix(lines, prefix) == [lines[j]]
  {
    var init := lines[..|lines| - 1];
    if j < |lines| - 1 {
      WithPrefixOnlyAt(init, prefix, j);
    } else {
      WithPrefixNone(init, prefix);
    }
  }

  /** No line with the prefix, nothing selected. */
  lemma {:induction false} WithPrefixNone(lines: seq<string>, prefix: string)
    requires forall k :: 0 <= k < |lines| ==> !Text.StartsWith(lines[k], prefix)
    ensures WithPrefix(lines, prefix) == []
  {
    if lines != [] {
      WithPrefixNone(lines[..|lines| - 1], prefix);
    }
  }

  /** How many lines of `lines` are exactly `line`. */
  function Count(lines: seq<string>, line: string): (r: nat)
    ensures r <= |lines|
    ensures r == 0 <==> line !in lines
  {
    if lines == [] then 0
    else Count(lines[..|lines| - 1], line) + (if lines[|lines| - 1] == line then 1 else 0)
  }

  /** Counting distributes over concatenation. */
  lemma {:induction false} CountAppend(a: seq<string>, b: seq<string>, line: string)
    ensures Count(a + b, line) == Count(a, line) + Count(b, line)
    decreases |b|
  {
    if b != [] {
      var b' := b[..|b| - 1];
      assert (a + b)[..|a + b| - 1] == a + b';
      CountAppend(a, b', line);
    } else {
      assert a + b == a;
    }
  }

  lemma CountSingle(x: string, line: string)
    ensures Count([x], line) == if x == line then 1 else 0
  {
    assert [x][..0] == [];
  }

  /** When the line at `j` is the only one equal to `line`, the count is one. */
  lemma {:induction false} CountOnlyAt(lines: seq<string>, line: string, j: nat)
    requires j < |lines| && lines[j] == line
    requires forall k :: 0 <= k < |lines| && k != j ==> lines[k] != line
    ensures Count(lines, line) == 1
  {
    var init := lines[..|lines| - 1];
    if j < |lines| - 1 {
      CountOnlyAt(init, line, j);
    } else {
      assert line !in init;
    }
  }

  /** A string begins with any string it is built from. */
  lemma StartsWithConcat(p: string, rest: string)
    ensures Text.StartsWith(p + rest, p)
  {
    assert (p + rest)[..|p|] == p;
  }

  /** A string that begins with `p` does not begin with, nor equal, a string `q`
      that differs from `p` within their common length. */
  lemma PrefixesClash(s: string, p: string, q: string, k: nat)
    requires Text.StartsWith(s, p) && k < |p| && k < |q| && p[k] != q[k]
    ensures !Text.StartsWith(s, q) && s != q
  {
    assert s[k] == s[..|p|][k];
  }

  /** A string does not begin with `prefix` once one of its first characters differs. */
  lemma DiffersAt(s: string, prefix: string, k: nat)
    requires k < |s| && k < |prefix| && s[k] != prefix[k]
    ensures !Text.StartsWith(s, prefix)
    ensures s != prefix
  {
  }

  /** The lines `block` produces for each element of `items` and its index, in order. */
  function Blocks<T>(items: seq<T>, block: (T, nat) -> seq<string>): seq<string> {
    if items == [] then []
    else Blocks(items[..|items| - 1], block) + block(items[|items| - 1], |items| - 1)
  }

  /** `items.forEach((item, index) => { text += ... })`: `base` followed by the
      rendered lines of every element's block, in order. */
  method AppendEach<T>(base: string, items: seq<T>, block: (T, nat) -> seq<string>, eol: string)
    returns (r: string)
    ensures r == base + Render(Blocks(items, block), eol)
  {
    r := base;
    var i := 0;
    assert items[..0] == [];
    while i < |items|
      invariant 0 <= i <= |items|
      invariant r == base + Render(Blocks(items[..i], block), eol)
    {
      assert items[..i + 1][..i] == items[..i];
      RenderAppend(Blocks(items[..i], block), block(items[i], i), eol);
      r := AppendLines(r, block(items[i], i), eol);
      i := i + 1;
    }
    assert items[..i] == items;
  }
}
