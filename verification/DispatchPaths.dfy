/** Paths of the dispatch protocol from one state to another. */
module DispatchPaths {
  import opened Dispatch

  /** Some run leads from one state to the other. */
  ghost predicate Leads(s: State, s': State, overlap: bool) {
    exists trace :: Run(s, trace, overlap) == s'
  }

  lemma LeadsSelf(s: State, overlap: bool)
    ensures Leads(s, s, overlap)
  {
    assert Run(s, [], overlap) == s;
  }

  lemma {:induction false} RunConcat(s: State, first: seq<Action>, second: seq<Action>, overlap: bool)
    ensures Run(s, first + second, overlap) == Run(Run(s, first, overlap), second, overlap)
  {
    if second == [] {
      assert first + second == first;
    } else {
      var n := |first + second| - 1;
      assert (first + second)[..n] == first + second[..|second| - 1];
      RunConcat(s, first, second[..|second| - 1], overlap);
    }
  }

  lemma LeadsTrans(s: State, s1: State, s2: State, overlap: bool)
    requires Leads(s, s1, overlap) && Leads(s1, s2, overlap)
    ensures Leads(s, s2, overlap)
  {
    var first :| Run(s, first, overlap) == s1;
    var second :| Run(s1, second, overlap) == s2;
    RunConcat(s, first, second, overlap);
  }

  lemma LeadsOne(s: State, action: Action, overlap: bool)
    ensures Leads(s, Apply(s, action, overlap), overlap)
  {
    assert [action][..0] == [];
    assert Run(s, [action], overlap) == Apply(s, action, overlap);
  }

  /** One more action. */
  lemma Then(s: State, s1: State, action: Action, overlap: bool) returns (s2: State)
    requires Leads(s, s1, overlap)
    ensures s2 == Apply(s1, action, overlap) && Leads(s, s2, overlap)
  {
    s2 := Apply(s1, action, overlap);
    LeadsOne(s1, action, overlap);
    LeadsTrans(s, s1, s2, overlap);
  }
}
