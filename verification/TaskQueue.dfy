/** The task record and the retry convention shared by both queue drivers
    (src/queue/types.ts). */
module TaskQueue {
  import opened Wrappers

  type TaskId = string

  /** The fields the drivers look at; times are epoch milliseconds. */
  datatype Task = Task(taskId: TaskId, attempts: nat, dueAt: Option<nat>, idempotencyKey: Option<string>)

  const DEFAULT_MAX_ATTEMPTS: nat := 5

  /** The attempt being given back is the last one. `attempts` counts earlier failures. */
  predicate IsTerminalAttempt(attempts: nat, maxAttempts: nat) {
    attempts + 1 >= maxAttempts
  }

  function Pow2(n: nat): nat {
    if n == 0 then 1 else 2 * Pow2(n - 1)
  }

  /** Delay before retry number `attempts`: doubling, capped at five minutes. */
  function Backoff(baseMs: nat, attempts: nat): nat
    requires attempts >= 1
  {
    var d := baseMs * Pow2(attempts - 1);
    if d < 300_000 then d else 300_000
  }

  lemma {:induction false} Pow2Positive(n: nat)
    ensures Pow2(n) >= 1
  {
    if n > 0 { Pow2Positive(n - 1); }
  }

  /** The first retry waits for the base delay, each further one twice as long as the one
      before, up to the cap. */
  lemma BackoffDoubles(baseMs: nat, attempts: nat)
    requires attempts >= 1
    ensures Backoff(baseMs, 1) == if baseMs < 300_000 then baseMs else 300_000
    ensures Backoff(baseMs, attempts + 1)
         == if 2 * Backoff(baseMs, attempts) < 300_000 then 2 * Backoff(baseMs, attempts) else 300_000
    ensures baseMs > 0 ==> Backoff(baseMs, attempts) > 0
  {
    Pow2Positive(attempts - 1);
    assert baseMs * Pow2(attempts) == 2 * (baseMs * Pow2(attempts - 1));
  }

  predicate IsDue(t: Task, now: nat) {
    t.dueAt.None? || t.dueAt.value <= now
  }
}
