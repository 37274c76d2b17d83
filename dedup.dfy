/** Duplicate removal at the end of the Windows program search
    (src/main/index.js, `get-installed-programs`): programs are told apart by
    their lower-cased name, popular apps are taken first, then everything else,
    each pass keeping the first program of a name. */
module Dedup {
  import opened Programs
  import Text
  import Seqs

  /** The name a program is compared by: `program.name.toLowerCase()`. */
  function Key(p: Program): string {
    Text.ToLower(p.name)
  }

  /** The names already seen among `ps`. */
  function Keys(ps: seq<Program>): set<string> {
    set k | 0 <= k < |ps| :: Key(ps[k])
  }

  /** The pass a program belongs to: the popular-app pass or the other one. */
  predicate InPass(p: Program, popular: bool) {
    (p.kind == PopularApp) == popular
  }

  /** One pass over `ps`: each program of the pass whose name is neither in `seen`
      nor already taken, in order. */
  function Pass(seen: set<string>, ps: seq<Program>, popular: bool): seq<Program> {
    if ps == [] then []
    else
      var r := Pass(seen, ps[..|ps| - 1], popular);
      var p := ps[|ps| - 1];
      if InPass(p, popular) && Key(p) !in seen + Keys(r) then r + [p] else r
  }

  /** `uniquePrograms`: the popular pass, then the other pass with the popular
      names already seen. */
  function Unique(ps: seq<Program>): seq<Program> {
    var first := Pass({}, ps, true);
    first + Pass(Keys(first), ps, false)
  }

  lemma KeysAppend(a: seq<Program>, b: seq<Program>)
    ensures Keys(a + b) == Keys(a) + Keys(b)
  {
    var ab := a + b;
    forall x | x in Keys(ab) ensures x in Keys(a) + Keys(b) {
      var k :| 0 <= k < |ab| && Key(ab[k]) == x;
      if k < |a| { assert ab[k] == a[k]; } else { assert ab[k] == b[k - |a|]; }
    }
    forall x | x in Keys(a) + Keys(b) ensures x in Keys(ab) {
      if x in Keys(a) {
        var k :| 0 <= k < |a| && Key(a[k]) == x;
        assert ab[k] == a[k];
      } else {
        var k :| 0 <= k < |b| && Key(b[k]) == x;
        assert ab[|a| + k] == b[k];
      }
    }
  }

  lemma KeysSingle(p: Program)
    ensures Keys([p]) == {Key(p)}
  {
    assert [p][0] == p;
    assert Key([p][0]) in Keys([p]);
  }

  /** A pass takes no name twice and none it was told is seen. */
  lemma {:induction false} PassDistinct(seen: set<string>, ps: seq<Program>, popular: bool)
    ensures forall i, j :: 0 <= i < j < |Pass(seen, ps, popular)| ==>
              Key(Pass(seen, ps, popular)[i]) != Key(Pass(seen, ps, popular)[j])
    ensures forall i :: 0 <= i < |Pass(seen, ps, popular)| ==> Key(Pass(seen, ps, popular)[i]) !in seen
  {
    if ps != [] {
      var init := ps[..|ps| - 1];
      PassDistinct(seen, init, popular);
      var r0 := Pass(seen, init, popular);
      var r := Pass(seen, ps, popular);
      var p := ps[|ps| - 1];
      if InPass(p, popular) && Key(p) !in seen + Keys(r0) {
        assert r == r0 + [p];
        forall i | 0 <= i < |r0| ensures r[i] == r0[i] && Key(r0[i]) != Key(p) {
          assert Key(r0[i]) in Keys(r0);
        }
      }
    }
  }

  /** A pass keeps programs in their input order. */
  lemma {:induction false} PassSubsequence(seen: set<string>, ps: seq<Program>, popular: bool)
    ensures Seqs.IsSubsequence(Pass(seen, ps, popular), ps)
  {
    if ps != [] {
      var init := ps[..|ps| - 1];
      var p := ps[|ps| - 1];
      var r := Pass(seen, init, popular);
      assert init + [p] == ps;
      PassSubsequence(seen, init, popular);
      Seqs.SubsequenceExtend(r, init, p);
      if InPass(p, popular) && Key(p) !in seen + Keys(r) {
        assert Pass(seen, ps, popular) == r + [p];
      } else {
        assert Pass(seen, ps, popular) == r;
      }
    }
  }

  /** A pass keeps input programs of its own kind only. */
  lemma {:induction false} PassMembers(seen: set<string>, ps: seq<Program>, popular: bool)
    ensures forall i :: 0 <= i < |Pass(seen, ps, popular)| ==>
              InPass(Pass(seen, ps, popular)[i], popular) && Pass(seen, ps, popular)[i] in ps
  {
    if ps != [] {
      var init := ps[..|ps| - 1];
      var p := ps[|ps| - 1];
      PassMembers(seen, init, popular);
      var r0 := Pass(seen, init, popular);
      var r := Pass(seen, ps, popular);
      forall i | 0 <= i < |r| ensures InPass(r[i], popular) && r[i] in ps {
        if i < |r0| {
          assert r[i] == r0[i];
          var k :| 0 <= k < |init| && init[k] == r0[i];
          assert ps[k] == init[k];
        } else {
          assert r[i] == p;
        }
      }
    } else {
      assert Pass(seen, ps, popular) == [];
    }
  }

  /** After a pass, every name of its kind in the input is seen or taken. */
  lemma {:induction false} PassCovers(seen: set<string>, ps: seq<Program>, popular: bool)
    ensures forall k :: 0 <= k < |ps| && InPass(ps[k], popular) ==> Key(ps[k]) in seen + Keys(Pass(seen, ps, popular))
  {
    if ps != [] {
      var init := ps[..|ps| - 1];
      var p := ps[|ps| - 1];
      var r0 := Pass(seen, init, popular);
      PassCovers(seen, init, popular);
      KeysAppend(r0, [p]);
      KeysSingle(p);
      var r := Pass(seen, ps, popular);
      assert Keys(r0) <= Keys(r);
      forall k | 0 <= k < |ps| && InPass(ps[k], popular) ensures Key(ps[k]) in seen + Keys(r) {
        if k < |init| {
          assert ps[k] == init[k];
        }
      }
    }
  }

  /** Every name taken belongs to a program of the pass in the input. */
  lemma {:induction false} PassKeysFromInput(seen: set<string>, ps: seq<Program>, popular: bool)
    ensures forall x :: x in Keys(Pass(seen, ps, popular)) ==>
              exists k :: 0 <= k < |ps| && InPass(ps[k], popular) && Key(ps[k]) == x
  {
    if ps != [] {
      var init := ps[..|ps| - 1];
      var p := ps[|ps| - 1];
      var r0 := Pass(seen, init, popular);
      PassKeysFromInput(seen, init, popular);
      KeysAppend(r0, [p]);
      forall x | x in Keys(Pass(seen, ps, popular))
        ensures exists k :: 0 <= k < |ps| && InPass(ps[k], popular) && Key(ps[k]) == x
      {
        if x in Keys(r0) {
          var k :| 0 <= k < |init| && InPass(init[k], popular) && Key(init[k]) == x;
          assert ps[k] == init[k];
        } else {
          assert InPass(ps[|ps| - 1], popular) && Key(ps[|ps| - 1]) == x;
        }
      }
    }
  }

  /** `ps[j]` is the first program of its pass with its name. */
  predicate FirstOfName(ps: seq<Program>, j: nat, popular: bool)
    requires j < |ps|
  {
    forall m :: 0 <= m < j && InPass(ps[m], popular) ==> Key(ps[m]) != Key(ps[j])
  }

  /** `x` is an input program that is the first of its name in its pass. */
  predicate FirstOccurrence(ps: seq<Program>, x: Program, popular: bool) {
    exists j :: 0 <= j < |ps| && ps[j] == x && FirstOfName(ps, j, popular)
  }

  /** Being first of a name does not depend on what comes later. */
  lemma FirstOfNameExtend(ps: seq<Program>, j: nat, popular: bool)
    requires 0 < |ps| && j < |ps| - 1 && FirstOfName(ps[..|ps| - 1], j, popular)
    ensures FirstOfName(ps, j, popular)
  {
    assert forall m :: 0 <= m <= j ==> ps[m] == ps[..|ps| - 1][m];
  }

  /** A program a pass takes has no earlier namesake in its pass. */
  lemma TakenIsFirst(seen: set<string>, ps: seq<Program>, popular: bool)
    requires ps != []
    requires var p := ps[|ps| - 1];
             InPass(p, popular) && Key(p) !in seen + Keys(Pass(seen, ps[..|ps| - 1], popular))
    ensures FirstOfName(ps, |ps| - 1, popular)
  {
    var init := ps[..|ps| - 1];
    PassCovers(seen, init, popular);
    assert forall m :: 0 <= m < |init| ==> ps[m] == init[m];
  }

  /** Each program a pass keeps is the first of its name among the programs of
      that pass. */
  lemma {:induction false} PassFirstWins(seen: set<string>, ps: seq<Program>, popular: bool)
    ensures forall i :: 0 <= i < |Pass(seen, ps, popular)| ==> FirstOccurrence(ps, Pass(seen, ps, popular)[i], popular)
  {
    if ps != [] {
      var init := ps[..|ps| - 1];
      var p := ps[|ps| - 1];
      var r0 := Pass(seen, init, popular);
      var r := Pass(seen, ps, popular);
      PassFirstWins(seen, init, popular);
      forall i | 0 <= i < |r|
        ensures FirstOccurrence(ps, r[i], popular)
      {
        if i < |r0| {
          assert r[i] == r0[i];
          var j :| 0 <= j < |init| && init[j] == r0[i] && FirstOfName(init, j, popular);
          FirstOfNameExtend(ps, j, popular);
          assert ps[j] == r[i];
        } else {
          TakenIsFirst(seen, ps, popular);
          assert ps[|ps| - 1] == r[i];
        }
      }
    } else {
      assert Pass(seen, ps, popular) == [];
    }
  }

  /** No two programs of the result share a lower-cased name. */
  lemma UniqueNamesDistinct(ps: seq<Program>)
    ensures forall i, j :: 0 <= i < j < |Unique(ps)| ==> Key(Unique(ps)[i]) != Key(Unique(ps)[j])
  {
    var first := Pass({}, ps, true);
    var second := Pass(Keys(first), ps, false);
    PassDistinct({}, ps, true);
    PassDistinct(Keys(first), ps, false);
    var r := first + second;
    forall i, j | 0 <= i < j < |r| ensures Key(r[i]) != Key(r[j]) {
      if j >= |first| && i < |first| {
        assert r[i] == first[i];
        assert Key(first[i]) in Keys(first);
        assert r[j] == second[j - |first|];
        assert Key(second[j - |first|]) !in Keys(first);
      } else if i >= |first| {
        assert r[i] == second[i - |first|] && r[j] == second[j - |first|];
      } else {
        assert r[i] == first[i] && r[j] == first[j];
      }
    }
  }

  /** Every popular app of the result comes before every other program. */
  lemma UniquePopularFirst(ps: seq<Program>)
    ensures forall i, j :: 0 <= i < j < |Unique(ps)| && Unique(ps)[j].kind == PopularApp ==>
              Unique(ps)[i].kind == PopularApp
  {
    var first := Pass({}, ps, true);
    var second := Pass(Keys(first), ps, false);
    PassMembers({}, ps, true);
    PassMembers(Keys(first), ps, false);
    var r := first + second;
    forall i, j | 0 <= i < j < |r| && r[j].kind == PopularApp ensures r[i].kind == PopularApp {
      if j < |first| {
        assert r[i] == first[i];
      }
    }
  }

  /** The result holds input programs only, each pass in input order. */
  lemma UniqueFromInput(ps: seq<Program>)
    ensures forall i :: 0 <= i < |Unique(ps)| ==> Unique(ps)[i] in ps
    ensures Seqs.IsSubsequence(Pass({}, ps, true), ps)
    ensures Seqs.IsSubsequence(Pass(Keys(Pass({}, ps, true)), ps, false), ps)
  {
    var first := Pass({}, ps, true);
    var second := Pass(Keys(first), ps, false);
    PassSubsequence({}, ps, true);
    PassSubsequence(Keys(first), ps, false);
    PassMembers({}, ps, true);
    PassMembers(Keys(first), ps, false);
    var r := first + second;
    forall i | 0 <= i < |r| ensures r[i] in ps {
      if i < |first| { assert r[i] == first[i]; } else { assert r[i] == second[i - |first|]; }
    }
  }

  /** Every name of the input is represented in the result, and no other. */
  lemma UniqueKeepsEveryName(ps: seq<Program>)
    ensures Keys(Unique(ps)) == Keys(ps)
  {
    var first := Pass({}, ps, true);
    var second := Pass(Keys(first), ps, false);
    KeysAppend(first, second);
    PassCovers({}, ps, true);
    PassCovers(Keys(first), ps, false);
    PassKeysFromInput({}, ps, true);
    PassKeysFromInput(Keys(first), ps, false);
    forall x | x in Keys(ps) ensures x in Keys(first) + Keys(second) {
      var k :| 0 <= k < |ps| && Key(ps[k]) == x;
      if InPass(ps[k], true) {
        assert Key(ps[k]) in {} + Keys(first);
      } else {
        assert InPass(ps[k], false);
      }
    }
    forall x | x in Keys(first) + Keys(second) ensures x in Keys(ps) {
      if x in Keys(first) {
        var k :| 0 <= k < |ps| && InPass(ps[k], true) && Key(ps[k]) == x;
      } else {
        var k :| 0 <= k < |ps| && InPass(ps[k], false) && Key(ps[k]) == x;
      }
    }
  }

  /** Within each pass the first program of a name wins: every program of the
      result is an input program that no earlier program of its own pass
      shares a name with. */
  lemma UniqueFirstWins(ps: seq<Program>)
    ensures forall i :: 0 <= i < |Unique(ps)| ==>
              FirstOccurrence(ps, Unique(ps)[i], Unique(ps)[i].kind == PopularApp)
  {
    var first := Pass({}, ps, true);
    var second := Pass(Keys(first), ps, false);
    PassFirstWins({}, ps, true);
    PassFirstWins(Keys(first), ps, false);
    PassMembers({}, ps, true);
    PassMembers(Keys(first), ps, false);
    var r := first + second;
    forall i | 0 <= i < |r|
      ensures FirstOccurrence(ps, r[i], r[i].kind == PopularApp)
    {
      if i < |first| {
        assert r[i] == first[i];
        assert InPass(first[i], true);
      } else {
        assert r[i] == second[i - |first|];
        assert InPass(second[i - |first|], false);
      }
    }
  }

  /** The two loops over `programs` with the `seenNames` set. */
  method RemoveDuplicates(programs: seq<Program>) returns (unique: seq<Program>)
    ensures unique == Unique(programs)
  {
    var seenNames;
    unique, seenNames := KeepPopularFirst(programs);
    unique := KeepTheRest(programs, unique, seenNames);
  }

  /** The first loop: popular apps whose name is not yet seen. */
  method KeepPopularFirst(programs: seq<Program>) returns (unique: seq<Program>, seenNames: set<string>)
    ensures unique == Pass({}, programs, true)
    ensures seenNames == Keys(unique)
  {
    unique := [];
    seenNames := {};
    for i := 0 to |programs|
      invariant unique == Pass({}, programs[..i], true)
      invariant seenNames == Keys(unique)
    {
      assert programs[..i + 1][..i] == programs[..i];
      var program := programs[i];
      if program.kind == PopularApp && Key(program) !in seenNames {
        KeysAppend(unique, [program]);
        KeysSingle(program);
        seenNames := seenNames + {Key(program)};
        unique := unique + [program];
      }
    }
    assert programs[..|programs|] == programs;
  }

  /** The second loop: every other program whose name is not yet seen, appended
      to the popular apps `first` already kept. */
  method KeepTheRest(programs: seq<Program>, first: seq<Program>, seenNames: set<string>) returns (unique: seq<Program>)
    requires seenNames == Keys(first)
    ensures unique == first + Pass(Keys(first), programs, false)
  {
    unique := first;
    var seen := seenNames;
    assert unique == first + [];
    for i := 0 to |programs|
      invariant unique == first + Pass(Keys(first), programs[..i], false)
      invariant seen == Keys(unique)
    {
      assert programs[..i + 1][..i] == programs[..i];
      var program := programs[i];
      var r := Pass(Keys(first), programs[..i], false);
      KeysAppend(first, r);
      if program.kind != PopularApp && Key(program) !in seen {
        KeysAppend(unique, [program]);
        KeysSingle(program);
        KeysAppend(r, [program]);
        seen := seen + {Key(program)};
        unique := unique + [program];
      }
    }
    assert programs[..|programs|] == programs;
  }
}
