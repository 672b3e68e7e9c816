/** Token usage as a provider reports it for one call, and running totals
    (src/types.ts, src/agent-loop/turn-loop.ts). */
module TokenUsage {
  import opened Wrappers

  /** One call's report; every count may be missing. `model` names the serving model. */
  datatype Usage = Usage(
    prompt: Option<int>, completion: Option<int>, total: Option<int>,
    cacheRead: Option<int>, cacheWrite: Option<int>, model: Option<string>)

  /** A cumulative count; missing counts are zero. */
  datatype Totals = Totals(prompt: int, completion: int, total: int, cacheRead: int, cacheWrite: int)

  function OrZero(n: Option<int>): int { if n.Some? then n.value else 0 }

  function NoTokens(): Totals { Totals(0, 0, 0, 0, 0) }

  function Plus(t: Totals, u: Usage): Totals {
    Totals(t.prompt + OrZero(u.prompt), t.completion + OrZero(u.completion), t.total + OrZero(u.total),
           t.cacheRead + OrZero(u.cacheRead), t.cacheWrite + OrZero(u.cacheWrite))
  }

  function Sum(us: seq<Usage>): Totals {
    if us == [] then NoTokens() else Plus(Sum(us[..|us| - 1]), us[|us| - 1])
  }

  predicate NonNegative(u: Usage) {
    OrZero(u.prompt) >= 0 && OrZero(u.completion) >= 0 && OrZero(u.cacheRead) >= 0 && OrZero(u.cacheWrite) >= 0
  }
}
