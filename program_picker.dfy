/** The program picker's search, selection and summary
    (src/renderer/src/components/ProgramPicker.jsx), over the program list the
    main process returns. */
module ProgramPicker {
  import opened Programs
  import Text
  import Seqs

  /** The search test: the lower-cased term occurs in the lower-cased name or path. */
  predicate Matches(searchTerm: string, p: Program) {
    var term := Text.ToLower(searchTerm);
    Text.Contains(Text.ToLower(p.name), term) || Text.Contains(Text.ToLower(p.path), term)
  }

  function MatchesTerm(searchTerm: string): Program -> bool {
    (p: Program) => Matches(searchTerm, p)
  }

  /** `filteredPrograms`. */
  function FilteredPrograms(programs: seq<Program>, searchTerm: string): seq<Program> {
    Seqs.Filter(programs, MatchesTerm(searchTerm))
  }

  /** The search test holds exactly when the lower-cased term occurs at some
      position of the lower-cased name or of the lower-cased path. */
  lemma MatchesIff(searchTerm: string, p: Program)
    ensures Matches(searchTerm, p) <==>
              (exists i :: Text.OccursAt(Text.ToLower(p.name), Text.ToLower(searchTerm), i))
              || (exists i :: Text.OccursAt(Text.ToLower(p.path), Text.ToLower(searchTerm), i))
  {
    Text.ContainsIff(Text.ToLower(p.name), Text.ToLower(searchTerm));
    Text.ContainsIff(Text.ToLower(p.path), Text.ToLower(searchTerm));
  }

  /** A program is listed if and only if it matches the search; the listed
      programs keep their order. */
  lemma FilterSpec(programs: seq<Program>, searchTerm: string)
    ensures forall k :: 0 <= k < |FilteredPrograms(programs, searchTerm)| ==>
              FilteredPrograms(programs, searchTerm)[k] in programs
              && Matches(searchTerm, FilteredPrograms(programs, searchTerm)[k])
    ensures forall k :: 0 <= k < |programs| && Matches(searchTerm, programs[k]) ==>
              programs[k] in FilteredPrograms(programs, searchTerm)
    ensures Seqs.IsSubsequence(FilteredPrograms(programs, searchTerm), programs)
  {
    var keep := MatchesTerm(searchTerm);
    assert forall p :: keep(p) == Matches(searchTerm, p);
    Seqs.FilterIsSubsequence(programs, keep);
  }

  /** An empty search lists every program. */
  lemma EmptySearchKeepsAll(programs: seq<Program>)
    ensures FilteredPrograms(programs, "") == programs
  {
    forall k | 0 <= k < |programs| ensures Matches("", programs[k]) {
      Text.ContainsEmpty(Text.ToLower(programs[k].name));
    }
    Seqs.FilterKeepsAll(programs, MatchesTerm(""));
  }

  /** What `handleProgramSelect` receives: a path typed or browsed to, or a
      program picked from the list. */
  datatype Choice = PathText(path: string) | Picked(program: Program)

  /** The path stored as `selectedPath` and passed to `onSelect`. */
  function PathToSelect(choice: Choice): string {
    match choice
    case PathText(path) => path
    case Picked(program) => program.path
  }

  /** Picking the entry at position `k` of the searched list forwards the path
      of a program the main process returned, one that matches the search. */
  lemma PickedFromList(programs: seq<Program>, searchTerm: string, k: nat)
    requires k < |FilteredPrograms(programs, searchTerm)|
    ensures exists j :: 0 <= j < |programs| && programs[j].path == PathToSelect(Picked(FilteredPrograms(programs, searchTerm)[k]))
                        && Matches(searchTerm, programs[j])
  {
    var p := FilteredPrograms(programs, searchTerm)[k];
    FilterSpec(programs, searchTerm);
    var j :| 0 <= j < |programs| && programs[j] == p;
  }

  /** The distinct `type` values: `new Set(programs.map(p => p.type))`. */
  function Kinds(programs: seq<Program>): set<string> {
    set k | 0 <= k < |programs| :: programs[k].kind
  }

  /** The number shown as the count of program types. */
  function TypeCount(programs: seq<Program>): nat {
    |Kinds(programs)|
  }

  lemma {:induction false} KindsAppend(programs: seq<Program>, p: Program)
    ensures Kinds(programs + [p]) == Kinds(programs) + {p.kind}
  {
    var ps := programs + [p];
    forall t | t in Kinds(ps) ensures t in Kinds(programs) + {p.kind} {
      var k :| 0 <= k < |ps| && ps[k].kind == t;
      if k < |programs| { assert programs[k] == ps[k]; }
    }
    forall t | t in Kinds(programs) ensures t in Kinds(ps) {
      var k :| 0 <= k < |programs| && programs[k].kind == t;
      assert ps[k] == programs[k];
    }
    assert ps[|programs|] == p;
  }

  /** There are at most as many types as programs, and at least one as soon as
      there is a program. */
  lemma {:induction false} TypeCountBounds(programs: seq<Program>)
    ensures TypeCount(programs) <= |programs|
    ensures TypeCount(programs) == 0 <==> programs == []
  {
    if programs != [] {
      var init := programs[..|programs| - 1];
      var p := programs[|programs| - 1];
      TypeCountBounds(init);
      assert programs == init + [p];
      KindsAppend(init, p);
    }
  }

  /** A program list of one kind counts one type. */
  lemma {:induction false} OneKindOneType(programs: seq<Program>, kind: string)
    requires programs != []
    requires forall k :: 0 <= k < |programs| ==> programs[k].kind == kind
    ensures TypeCount(programs) == 1
  {
    assert Kinds(programs) == {kind} by {
      assert programs[0].kind == kind;
    }
  }
}
