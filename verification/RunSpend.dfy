/** The spend the limit check sees during a run of the turn loop (src/runner.ts,
    src/agent-loop/turn-loop.ts). */
module RunSpend {
  import opened Wrappers
  import opened TokenUsage
  import Pricing
  import TurnLoop

  /** What each completed turn reported. */
  function TurnUsages(sc: TurnLoop.Script, first: int, n: nat): seq<Option<Usage>> {
    if n == 0 then []
    else
      var reply := sc.send(first + n - 1);
      TurnUsages(sc, first, n - 1) + [if reply.Reply? then reply.usage else None]
  }

  /** The loop lists for billing what the turns reported, tagged with the serving model. */
  lemma {:induction false} LoopListsCalls(sc: TurnLoop.Script, first: int, n: nat)
    requires sc.billingModel != ""
    ensures TurnLoop.AllUsage(sc, first, n) == Pricing.PerCall(sc.billingModel, TurnUsages(sc, first, n))
  {
    if n > 0 {
      LoopListsCalls(sc, first, n - 1);
      var turns := TurnUsages(sc, first, n);
      assert turns[..|turns| - 1] == TurnUsages(sc, first, n - 1);
    }
  }

  predicate ReportsTokens(sc: TurnLoop.Script, first: int, n: nat) {
    Pricing.Reported(TurnUsages(sc, first, n))
  }

  /** After any number of turns of one attempt, whatever the model, the tools and the hooks
      did: the spend counted from the deltas of the cumulative usage is the total cost of the
      calls the loop lists for billing. */
  lemma LimitCheckSeesBill(cat: Pricing.Catalog, sc: TurnLoop.Script, modelName: string, first: int, n: nat)
    requires sc.billingModel != "" && ReportsTokens(sc, first, n)
    ensures Pricing.AttemptCost(cat, sc.billingModel, TurnUsages(sc, first, n))
         == Pricing.SumCosts(cat, modelName, TurnLoop.AllUsage(sc, first, n)).total
    ensures Sum(TurnLoop.AllUsage(sc, first, n)) == Pricing.Cumulative(TurnUsages(sc, first, n))
  {
    hide Pricing.ComputeCost;
    var turns := TurnUsages(sc, first, n);
    LoopListsCalls(sc, first, n);
    Pricing.SpendTelescopes(cat, sc.billingModel, modelName, turns);
    Pricing.PerCallSums(sc.billingModel, turns);
  }
}
