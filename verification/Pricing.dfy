/** Billing of model calls (src/cost-tracking/pricing.ts) and the running spend of one
    attempt (src/runner.ts). Prices are data; amounts are exact reals. */
module Pricing {
  import opened Wrappers
  import opened TokenUsage

  /** A catalog row: USD per million tokens, each price optional. */
  datatype Row = Row(
    resolvedId: string, input: Option<real>, output: Option<real>, cacheRead: Option<real>, cacheWrite: Option<real>)

  /** Prices of a call over 200k tokens. */
  datatype Tier = Tier(input: real, output: real, cacheRead: Option<real>, cacheWrite: Option<real>)

  datatype Catalog = Catalog(rows: map<string, Row>, tiers: map<string, Tier>)

  datatype CallTokens = CallTokens(prompt: int, completion: int, cached: int, cacheWrite: int)

  datatype Cost = Cost(input: real, output: real, cached: real, total: real)

  const TIER_THRESHOLD: int := 200_000

  function First(a: Option<real>, b: Option<real>): Option<real> { if a.Some? then a else b }

  function OrFree(p: Option<real>): real { if p.Some? then p.value else 0.0 }

  function Max(a: int, b: int): int { if a >= b then a else b }

  function MaxReal(a: real, b: real): real { if a >= b then a else b }

  /** The prices that apply to one call; None where the tokens are billed as plain input. */
  datatype Prices = Prices(input: real, output: real, cacheRead: Option<real>, cacheWrite: Option<real>)

  function PricesFor(cat: Catalog, row: Row, u: CallTokens): Prices {
    var tier := if u.prompt + u.completion > TIER_THRESHOLD && row.resolvedId in cat.tiers
                then Some(cat.tiers[row.resolvedId]) else None;
    Prices(
      if tier.Some? then tier.value.input else OrFree(row.input),
      if tier.Some? then tier.value.output else OrFree(row.output),
      First(First(if tier.Some? then tier.value.cacheRead else None, row.cacheRead), row.cacheWrite),
      First(if tier.Some? then tier.value.cacheWrite else None, row.cacheWrite))
  }

  /** Tokens billed at the input price. */
  function InputTokens(p: Prices, u: CallTokens): int {
    Max(0, u.prompt - (if p.cacheRead.Some? then u.cached else 0) - (if p.cacheWrite.Some? then u.cacheWrite else 0))
  }

  function PerMillion(tokens: int, price: real): real { tokens as real / 1000000.0 * price }

  function ComputeCost(cat: Catalog, model: string, u: CallTokens): Cost {
    if model !in cat.rows then Cost(0.0, 0.0, 0.0, 0.0)
    else
      var p := PricesFor(cat, cat.rows[model], u);
      var input := PerMillion(InputTokens(p, u), p.input);
      var output := PerMillion(u.completion, p.output);
      var read := if p.cacheRead.Some? then PerMillion(u.cached, p.cacheRead.value) else 0.0;
      var write := if p.cacheWrite.Some? then PerMillion(u.cacheWrite, p.cacheWrite.value) else 0.0;
      Cost(input, output, read + write, input + output + read + write)
  }

  /** When the cache counts are part of the prompt count, every prompt token is billed once:
      at its cache price or as input. */
  lemma EveryTokenBilledOnce(cat: Catalog, row: Row, u: CallTokens)
    requires 0 <= u.cached && 0 <= u.cacheWrite && u.cached + u.cacheWrite <= u.prompt
    ensures var p := PricesFor(cat, row, u);
            InputTokens(p, u) + (if p.cacheRead.Some? then u.cached else 0) + (if p.cacheWrite.Some? then u.cacheWrite else 0)
            == u.prompt
  {
    hide PricesFor;
  }

  /** The parts of a bill add up to its total, and a call without tokens is free. */
  lemma CostAddsUp(cat: Catalog, model: string, u: CallTokens)
    ensures var c := ComputeCost(cat, model, u); c.total == c.input + c.output + c.cached
    ensures u == CallTokens(0, 0, 0, 0) ==> ComputeCost(cat, model, u).total == 0.0
  {
    if model in cat.rows && u == CallTokens(0, 0, 0, 0) {
      var p := PricesFor(cat, cat.rows[model], u);
      FreeTokens(p.input);
      FreeTokens(p.output);
      if p.cacheRead.Some? { FreeTokens(p.cacheRead.value); }
      if p.cacheWrite.Some? { FreeTokens(p.cacheWrite.value); }
    }
  }

  lemma FreeTokens(price: real)
    ensures PerMillion(0, price) == 0.0
  {
  }

  lemma PerMillionMinus(a: int, b: int, price: real)
    ensures PerMillion(a - b, price) == PerMillion(a, price) - PerMillion(b, price)
  {
    var x, y := a as real / 1000000.0, b as real / 1000000.0;
    assert (a - b) as real / 1000000.0 == x - y;
    assert (x - y) * price == x * price - y * price;
  }

  lemma PerMillionDiscount(tokens: int, price: real, base: real)
    ensures PerMillion(tokens, price) - PerMillion(tokens, base) == PerMillion(tokens, price - base)
  {
    var x := tokens as real / 1000000.0;
    assert x * price - x * base == x * (price - base);
  }

  /** What caching changes about a bill: each cached token that has a cache price pays the
      difference to the input price, a cached token without one pays nothing extra, and the
      tier is that of the same call without caching. */
  lemma CachingChangesBillBy(cat: Catalog, model: string, u: CallTokens)
    requires 0 <= u.cached && 0 <= u.cacheWrite && u.cached + u.cacheWrite <= u.prompt && model in cat.rows
    ensures var plain := u.(cached := 0, cacheWrite := 0);
            var p := PricesFor(cat, cat.rows[model], plain);
            ComputeCost(cat, model, u).total
            == ComputeCost(cat, model, plain).total
               + (if p.cacheRead.Some? then PerMillion(u.cached, p.cacheRead.value - p.input) else 0.0)
               + (if p.cacheWrite.Some? then PerMillion(u.cacheWrite, p.cacheWrite.value - p.input) else 0.0)
  {
    var plain := u.(cached := 0, cacheWrite := 0);
    var p := PricesFor(cat, cat.rows[model], plain);
    assert PricesFor(cat, cat.rows[model], u) == p;
    hide PricesFor, PerMillion;
    var read, write := if p.cacheRead.Some? then u.cached else 0, if p.cacheWrite.Some? then u.cacheWrite else 0;
    PerMillionMinus(u.prompt, read, p.input);
    PerMillionMinus(u.prompt - read, write, p.input);
    FreeTokens(p.input);
    if p.cacheRead.Some? { FreeTokens(p.cacheRead.value); PerMillionDiscount(u.cached, p.cacheRead.value, p.input); }
    if p.cacheWrite.Some? { FreeTokens(p.cacheWrite.value); PerMillionDiscount(u.cacheWrite, p.cacheWrite.value, p.input); }
  }

  predicate PriceOk(p: Option<real>) { p.Some? ==> p.value >= 0.0 }

  predicate CatalogOk(cat: Catalog) {
    && (forall m :: m in cat.rows ==> var r := cat.rows[m];
                                       PriceOk(r.input) && PriceOk(r.output) && PriceOk(r.cacheRead) && PriceOk(r.cacheWrite))
    && (forall m :: m in cat.tiers ==> var t := cat.tiers[m];
                                        t.input >= 0.0 && t.output >= 0.0 && PriceOk(t.cacheRead) && PriceOk(t.cacheWrite))
  }

  lemma PerMillionNonNegative(tokens: int, price: real)
    requires tokens >= 0 && price >= 0.0
    ensures PerMillion(tokens, price) >= 0.0
  {
  }

  lemma PricesNonNegative(cat: Catalog, model: string, u: CallTokens)
    requires CatalogOk(cat) && model in cat.rows
    ensures var p := PricesFor(cat, cat.rows[model], u);
            p.input >= 0.0 && p.output >= 0.0 && PriceOk(p.cacheRead) && PriceOk(p.cacheWrite)
  {
    var row := cat.rows[model];
    if row.resolvedId in cat.tiers { var t := cat.tiers[row.resolvedId]; assert t.input >= 0.0; }
  }

  lemma CostNonNegative(cat: Catalog, model: string, u: CallTokens)
    requires CatalogOk(cat) && u.completion >= 0 && u.cached >= 0 && u.cacheWrite >= 0
    ensures ComputeCost(cat, model, u).total >= 0.0
  {
    hide PricesFor, PerMillion, CatalogOk;
    if model in cat.rows {
      var p := PricesFor(cat, cat.rows[model], u);
      PricesNonNegative(cat, model, u);
      PerMillionNonNegative(InputTokens(p, u), p.input);
      PerMillionNonNegative(u.completion, p.output);
      if p.cacheRead.Some? { PerMillionNonNegative(u.cached, p.cacheRead.value); }
      if p.cacheWrite.Some? { PerMillionNonNegative(u.cacheWrite, p.cacheWrite.value); }
    }
  }

  // ---------------------------------------------------------------------------
  // The bill of a run
  // ---------------------------------------------------------------------------

  function TokensOf(u: Usage): CallTokens {
    CallTokens(OrZero(u.prompt), OrZero(u.completion), OrZero(u.cacheRead), OrZero(u.cacheWrite))
  }

  /** The model that a call is billed at. */
  function Served(u: Usage, modelName: string): string { if u.model.Some? then u.model.value else modelName }

  function CostOfCall(cat: Catalog, modelName: string, u: Usage): Cost {
    ComputeCost(cat, Served(u, modelName), TokensOf(u))
  }

  /** The four kinds of token of a call. */
  datatype Kind = InputKind | OutputKind | ReadKind | WriteKind

  /** Where the price of a kind of token is looked for, in that order; the tier prices are for
      calls of more than two hundred thousand tokens. */
  function Candidates(cat: Catalog, row: Row, large: bool, kind: Kind): seq<Option<real>> {
    var tiered := large && row.resolvedId in cat.tiers;
    match kind
    case InputKind => [if tiered then Some(cat.tiers[row.resolvedId].input) else None, row.input]
    case OutputKind => [if tiered then Some(cat.tiers[row.resolvedId].output) else None, row.output]
    case ReadKind => [if tiered then cat.tiers[row.resolvedId].cacheRead else None, row.cacheRead, row.cacheWrite]
    case WriteKind => [if tiered then cat.tiers[row.resolvedId].cacheWrite else None, row.cacheWrite]
  }

  function FirstKnown(prices: seq<Option<real>>): Option<real> {
    if prices == [] then None else if prices[0].Some? then prices[0] else FirstKnown(prices[1..])
  }

  predicate Large(u: Usage) { OrZero(u.prompt) + OrZero(u.completion) > 200_000 }

  predicate CacheWithinPrompt(u: Usage) {
    && 0 <= OrZero(u.cacheRead) && 0 <= OrZero(u.cacheWrite)
    && OrZero(u.cacheRead) + OrZero(u.cacheWrite) <= OrZero(u.prompt)
  }

  /** The same call with n tokens more of one kind. */
  function More(u: Usage, kind: Kind, n: nat): Usage {
    match kind
    case InputKind => u.(prompt := Some(OrZero(u.prompt) + n))
    case OutputKind => u.(completion := Some(OrZero(u.completion) + n))
    case ReadKind => u.(cacheRead := Some(OrZero(u.cacheRead) + n))
    case WriteKind => u.(cacheWrite := Some(OrZero(u.cacheWrite) + n))
  }

  /** What n tokens more of one kind add to a bill: their price, or for tokens read from or
      written to the cache the difference to the input price; a price that the catalog does not
      know is zero, but a cache token without one pays as input. */
  lemma TokenPrices(cat: Catalog, modelName: string, u: Usage, kind: Kind, n: nat)
    requires Served(u, modelName) in cat.rows
    requires CacheWithinPrompt(u) && CacheWithinPrompt(More(u, kind, n)) && Large(u) == Large(More(u, kind, n))
    ensures var row := cat.rows[Served(u, modelName)];
            var input := OrFree(FirstKnown(Candidates(cat, row, Large(u), InputKind)));
            var price := FirstKnown(Candidates(cat, row, Large(u), kind));
            CostOfCall(cat, modelName, More(u, kind, n)).total
            == CostOfCall(cat, modelName, u).total
               + match kind
                 case InputKind => PerMillion(n, input)
                 case OutputKind => PerMillion(n, OrFree(price))
                 case _ => if price.Some? then PerMillion(n, price.value - input) else 0.0
  {
    hide PricesFor, PerMillion, Candidates, FirstKnown, Large;
    var row, a := cat.rows[Served(u, modelName)], TokensOf(u);
    var p := PricesFor(cat, row, a);
    QuotedPrices(cat, row, u, kind);
    QuotedPrices(cat, row, u, InputKind);
    SamePrices(cat, row, u, More(u, kind, n));
    match kind
    case InputKind => PerMillionPlus(InputTokens(p, a), n, p.input);
    case OutputKind => PerMillionPlus(a.completion, n, p.output);
    case ReadKind =>
      if p.cacheRead.Some? {
        PerMillionPlus(a.cached, n, p.cacheRead.value);
        PerMillionMinus(InputTokens(p, a), n, p.input);
        PerMillionDiscount(n, p.cacheRead.value, p.input);
      }
    case WriteKind =>
      if p.cacheWrite.Some? {
        PerMillionPlus(a.cacheWrite, n, p.cacheWrite.value);
        PerMillionMinus(InputTokens(p, a), n, p.input);
        PerMillionDiscount(n, p.cacheWrite.value, p.input);
      }
  }

  lemma QuotedPrices(cat: Catalog, row: Row, u: Usage, kind: Kind)
    ensures var p, price := PricesFor(cat, row, TokensOf(u)), FirstKnown(Candidates(cat, row, Large(u), kind));
            match kind
            case InputKind => p.input == OrFree(price)
            case OutputKind => p.output == OrFree(price)
            case ReadKind => p.cacheRead == price
            case WriteKind => p.cacheWrite == price
  {
    hide FirstKnown;
    var prices := Candidates(cat, row, Large(u), kind);
    if |prices| == 2 { FirstOfTwo(prices[0], prices[1]); } else { FirstOfThree(prices[0], prices[1], prices[2]); }
  }

  lemma FirstOfTwo(a: Option<real>, b: Option<real>)
    ensures FirstKnown([a, b]) == First(a, b)
  {
    assert [b][1..] == [];
    assert FirstKnown([b]) == b;
    assert [a, b][1..] == [b];
  }

  lemma FirstOfThree(a: Option<real>, b: Option<real>, c: Option<real>)
    ensures FirstKnown([a, b, c]) == First(First(a, b), c)
  {
    assert [a, b, c][1..] == [b, c];
    FirstOfTwo(b, c);
  }

  lemma SamePrices(cat: Catalog, row: Row, u: Usage, u': Usage)
    requires Large(u) == Large(u')
    ensures PricesFor(cat, row, TokensOf(u)) == PricesFor(cat, row, TokensOf(u'))
  {
  }

  lemma PerMillionPlus(a: int, b: int, price: real)
    ensures PerMillion(a + b, price) == PerMillion(a, price) + PerMillion(b, price)
  {
    PerMillionMinus(a + b, b, price);
  }

  function AddCost(a: Cost, b: Cost): Cost {
    Cost(a.input + b.input, a.output + b.output, a.cached + b.cached, a.total + b.total)
  }

  function SumCosts(cat: Catalog, modelName: string, calls: seq<Usage>): Cost {
    if calls == [] then Cost(0.0, 0.0, 0.0, 0.0)
    else AddCost(SumCosts(cat, modelName, calls[..|calls| - 1]), CostOfCall(cat, modelName, calls[|calls| - 1]))
  }

  /** The aggregate stands in when there is no list of calls. */
  function Billed(perCall: seq<Usage>, aggregate: Usage): seq<Usage> {
    if |perCall| > 0 then perCall else [aggregate]
  }

  method ComputeTotalCost(cat: Catalog, modelName: string, perCall: seq<Usage>, aggregate: Usage) returns (total: Cost)
    ensures total == SumCosts(cat, modelName, Billed(perCall, aggregate))
    ensures total.total == total.input + total.output + total.cached
  {
    hide ComputeCost;
    var calls := if |perCall| > 0 then perCall else [aggregate];
    total := Cost(0.0, 0.0, 0.0, 0.0);
    for k := 0 to |calls|
      invariant total == SumCosts(cat, modelName, calls[..k])
      invariant total.total == total.input + total.output + total.cached
    {
      assert calls[..k + 1][..k] == calls[..k];
      var usage := calls[k];
      var model := if usage.model.Some? then usage.model.value else modelName;
      var cost := ComputeCost(cat, model, TokensOf(usage));
      CostAddsUp(cat, model, TokensOf(usage));
      total := Cost(total.input + cost.input, total.output + cost.output, total.cached + cost.cached, total.total + cost.total);
    }
    assert calls[..|calls|] == calls;
  }

  // ---------------------------------------------------------------------------
  // The running spend of one attempt
  // ---------------------------------------------------------------------------

  /** The tokens a turn added to the cumulative usage. */
  function Delta(now: Totals, before: Totals): CallTokens {
    CallTokens(Max(0, now.prompt - before.prompt), Max(0, now.completion - before.completion),
               Max(0, now.cacheRead - before.cacheRead), Max(0, now.cacheWrite - before.cacheWrite))
  }

  /** What the turn loop reports per completed turn: a usage, or nothing. */
  type TurnUsage = Option<Usage>

  /** The calls the loop lists for billing, each tagged with the serving model. */
  function PerCall(model: string, turns: seq<TurnUsage>): seq<Usage> {
    if turns == [] then []
    else
      var last := turns[|turns| - 1];
      PerCall(model, turns[..|turns| - 1]) + if last.Some? then [last.value.(model := Some(model))] else []
  }

  /** The cumulative usage after those turns. */
  function Cumulative(turns: seq<TurnUsage>): Totals {
    if turns == [] then NoTokens()
    else
      var last := turns[|turns| - 1];
      var before := Cumulative(turns[..|turns| - 1]);
      if last.Some? then Plus(before, last.value) else before
  }

  /** The cost of the cumulative-usage deltas, turn by turn. */
  function AttemptCost(cat: Catalog, model: string, turns: seq<TurnUsage>): real {
    if turns == [] then 0.0
    else
      var most := turns[..|turns| - 1];
      AttemptCost(cat, model, most) + ComputeCost(cat, model, Delta(Cumulative(turns), Cumulative(most))).total
  }

  predicate Reported(turns: seq<TurnUsage>) {
    forall k :: 0 <= k < |turns| && turns[k].Some? ==> NonNegative(turns[k].value)
  }

  /** One turn's delta is that turn's call. */
  lemma DeltaIsCall(turns: seq<TurnUsage>)
    requires turns != [] && Reported(turns)
    ensures var last := turns[|turns| - 1];
            Delta(Cumulative(turns), Cumulative(turns[..|turns| - 1]))
            == if last.Some? then TokensOf(last.value) else CallTokens(0, 0, 0, 0)
  {
  }

  /** After every turn the spend of the deltas is the bill of the calls so far: the limit
      check sees the very spend, tiers applied per request, that is billed at the end. */
  lemma {:induction false} SpendTelescopes(cat: Catalog, model: string, modelName: string, turns: seq<TurnUsage>)
    requires Reported(turns)
    ensures AttemptCost(cat, model, turns) == SumCosts(cat, modelName, PerCall(model, turns)).total
  {
    hide ComputeCost, Cumulative, Delta;
    if turns != [] {
      var most, last := turns[..|turns| - 1], turns[|turns| - 1];
      SpendTelescopes(cat, model, modelName, most);
      DeltaIsCall(turns);
      CostAddsUp(cat, model, CallTokens(0, 0, 0, 0));
      if last.Some? {
        var calls := PerCall(model, most) + [last.value.(model := Some(model))];
        assert calls[..|calls| - 1] == PerCall(model, most);
      } else {
        assert PerCall(model, turns) == PerCall(model, most);
      }
    }
  }

  /** The same for the whole bill, which falls back to the aggregate for a run of calls that
      reported nothing. */
  lemma SpendIsBill(cat: Catalog, model: string, modelName: string, turns: seq<TurnUsage>)
    requires Reported(turns)
    ensures var t := Cumulative(turns);
            var aggregate := Usage(Some(t.prompt), Some(t.completion), Some(t.total), Some(t.cacheRead), Some(t.cacheWrite), None);
            AttemptCost(cat, model, turns) == SumCosts(cat, modelName, Billed(PerCall(model, turns), aggregate)).total
  {
    hide ComputeCost, AttemptCost;
    SpendTelescopes(cat, model, modelName, turns);
    if PerCall(model, turns) == [] {
      NothingReported(model, turns);
      CostAddsUp(cat, modelName, CallTokens(0, 0, 0, 0));
      var aggregate := Usage(Some(0), Some(0), Some(0), Some(0), Some(0), None);
      assert [aggregate][..0] == [];
      assert SumCosts(cat, modelName, [aggregate]).total == SumCosts(cat, modelName, []).total + CostOfCall(cat, modelName, aggregate).total;
    }
  }

  lemma {:induction false} NothingReported(model: string, turns: seq<TurnUsage>)
    requires PerCall(model, turns) == []
    ensures Cumulative(turns) == NoTokens()
  {
    if turns != [] { NothingReported(model, turns[..|turns| - 1]); }
  }

  /** The tokens listed for billing are the cumulative usage. */
  lemma {:induction false} PerCallSums(model: string, turns: seq<TurnUsage>)
    ensures Sum(PerCall(model, turns)) == Cumulative(turns)
  {
    if turns != [] {
      var most, last := turns[..|turns| - 1], turns[|turns| - 1];
      PerCallSums(model, most);
      if last.Some? {
        var calls := PerCall(model, most) + [last.value.(model := Some(model))];
        assert calls[..|calls| - 1] == PerCall(model, most);
        assert Sum(calls) == Plus(Sum(calls[..|calls| - 1]), last.value);
      } else {
        assert PerCall(model, turns) == PerCall(model, most);
      }
    }
  }

  /** Spend never goes down. */
  lemma SpendGrows(cat: Catalog, model: string, turns: seq<TurnUsage>)
    requires CatalogOk(cat) && turns != []
    ensures AttemptCost(cat, model, turns) >= AttemptCost(cat, model, turns[..|turns| - 1])
  {
    hide ComputeCost, CatalogOk, Cumulative;
    CostNonNegative(cat, model, Delta(Cumulative(turns), Cumulative(turns[..|turns| - 1])));
  }

  /** The runner's accounting variables. */
  class SpendTracker {
    var prevRunCost: real        // spend of the run so far, as the limit check sees it
    var seededRunCost: real      // what it was before the first attempt
    var attemptRunCost: real
    var prevTurnUsage: Totals

    constructor (seed: real)
      ensures prevRunCost == seed && seededRunCost == seed
    {
      prevRunCost, seededRunCost, attemptRunCost, prevTurnUsage := seed, seed, 0.0, NoTokens();
    }

    /** A fallback hop starts its own count. */
    method StartAttempt()
      modifies this
      ensures attemptRunCost == 0.0 && prevTurnUsage == NoTokens()
      ensures prevRunCost == old(prevRunCost) && seededRunCost == old(seededRunCost)
    {
      attemptRunCost := 0.0;
      prevTurnUsage := NoTokens();
    }

    /** The turn hook, called with the cumulative usage of the attempt. */
    method OnTurnComplete(cat: Catalog, model: string, usage: Totals)
      modifies this
      ensures attemptRunCost == old(attemptRunCost) + ComputeCost(cat, model, Delta(usage, old(prevTurnUsage))).total
      ensures prevTurnUsage == usage && seededRunCost == old(seededRunCost)
      ensures prevRunCost == MaxReal(old(prevRunCost), seededRunCost + attemptRunCost)
    {
      var turnUsage := CallTokens(
        Max(0, usage.prompt - prevTurnUsage.prompt), Max(0, usage.completion - prevTurnUsage.completion),
        Max(0, usage.cacheRead - prevTurnUsage.cacheRead), Max(0, usage.cacheWrite - prevTurnUsage.cacheWrite));
      prevTurnUsage := usage;
      var turnCost := ComputeCost(cat, model, turnUsage);
      attemptRunCost := attemptRunCost + turnCost.total;
      prevRunCost := MaxReal(prevRunCost, seededRunCost + attemptRunCost);
    }

    /** One attempt: what the limit check sees at its end is the seed plus the bill of its
        calls, or the higher spend of an earlier attempt. */
    method RunAttempt(cat: Catalog, model: string, turns: seq<TurnUsage>)
      requires CatalogOk(cat) && Reported(turns) && prevRunCost >= seededRunCost
      modifies this
      ensures attemptRunCost == SumCosts(cat, model, PerCall(model, turns)).total
      ensures seededRunCost == old(seededRunCost)
      ensures prevRunCost == MaxReal(old(prevRunCost), seededRunCost + attemptRunCost)
    {
      hide ComputeCost, CatalogOk, Delta;
      StartAttempt();
      var usage := NoTokens();
      for k := 0 to |turns|
        invariant usage == prevTurnUsage == Cumulative(turns[..k])
        invariant attemptRunCost == AttemptCost(cat, model, turns[..k])
        invariant seededRunCost == old(seededRunCost)
        invariant prevRunCost == MaxReal(old(prevRunCost), seededRunCost + attemptRunCost)
      {
        assert turns[..k + 1][..k] == turns[..k];
        SpendGrows(cat, model, turns[..k + 1]);
        if turns[k].Some? { usage := Plus(usage, turns[k].value); }
        OnTurnComplete(cat, model, usage);
      }
      assert turns[..|turns|] == turns;
      SpendTelescopes(cat, model, model, turns);
    }
  }

  /** getModelPricing: a cache in front of the catalog never changes an answer. */
  class PricingCache {
    const cat: Catalog
    var cache: map<string, Row>

    ghost predicate Valid()
      reads this
    {
      forall m :: m in cache ==> m in cat.rows && cache[m] == cat.rows[m]
    }

    constructor (cat: Catalog)
      ensures Valid() && this.cat == cat
    {
      this.cat, cache := cat, map[];
    }

    method GetModelPricing(m: string) returns (row: Option<Row>)
      requires Valid()
      modifies this
      ensures Valid() && (row == if m in cat.rows then Some(cat.rows[m]) else None)
    {
      if m in cache { return Some(cache[m]); }
      row := if m in cat.rows then Some(cat.rows[m]) else None;
      if row.Some? { cache := cache[m := row.value]; }
    }
  }
}
