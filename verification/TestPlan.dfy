/** Turning a risk classifier's advisory proposal into the plan that runs. */
module TestPlan {
  import opened Checkpoint
  import opened Wrappers

  /** First occurrences, in order: what a set built from a list iterates over. */
  function Distinct(names: seq<string>): seq<string> {
    if names == [] then []
    else
      var init, last := Distinct(names[..|names| - 1]), names[|names| - 1];
      if last in init then init else init + [last]
  }

  /** A plan without mandatory scenarios is refused. */
  function CompileTestPlan(proposal: Plan, mandatory: seq<string>, maximum: nat): Option<Plan> {
    if mandatory == [] then None
    else Some(proposal.(scenarios := Distinct(mandatory + proposal.scenarios),
                        toolBudget := if proposal.toolBudget > maximum then maximum else proposal.toolBudget))
  }

  lemma {:induction false} DistinctKeepsNames(names: seq<string>)
    ensures forall name :: name in Distinct(names) <==> name in names
    ensures forall i, j :: 0 <= i < j < |Distinct(names)| ==> Distinct(names)[i] != Distinct(names)[j]
  {
    if names != [] {
      var init, last := names[..|names| - 1], names[|names| - 1];
      DistinctKeepsNames(init);
      assert names == init + [last];
    }
  }

  lemma {:induction false} DistinctOfPrefix(names: seq<string>, n: nat)
    requires n <= |names|
    ensures Distinct(names[..n]) <= Distinct(names)
  {
    if n < |names| {
      var init := names[..|names| - 1];
      DistinctOfPrefix(init, n);
      assert init[..n] == names[..n];
    } else {
      assert names[..n] == names;
    }
  }

  /** Whatever is proposed, every mandatory scenario runs, before any other, nothing
      runs that neither side asked for, and the budget is the largest that both the
      proposal and the mandate allow. */
  lemma ProposalOnlyNarrows(proposal: Plan, mandatory: seq<string>, maximum: nat)
    requires mandatory != []
    ensures var plan := CompileTestPlan(proposal, mandatory, maximum);
            && plan.Some?
            && Distinct(mandatory) <= plan.value.scenarios
            && (forall name :: name in mandatory ==> name in plan.value.scenarios)
            && (forall name :: name in plan.value.scenarios <==> name in mandatory || name in proposal.scenarios)
            && plan.value.toolBudget <= maximum && plan.value.toolBudget <= proposal.toolBudget
            && (plan.value.toolBudget == maximum || plan.value.toolBudget == proposal.toolBudget)
            && plan.value.riskLevel == proposal.riskLevel && plan.value.rationale == proposal.rationale
            && forall i, j :: 0 <= i < j < |plan.value.scenarios| ==> plan.value.scenarios[i] != plan.value.scenarios[j]
  {
    var names := mandatory + proposal.scenarios;
    DistinctKeepsNames(names);
    DistinctOfPrefix(names, |mandatory|);
    assert names[..|mandatory|] == mandatory;
  }
}
