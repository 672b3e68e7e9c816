/** The in-memory queue driver (src/queue/in-memory.ts): what each operation does to the
    queue as a value, the driver class proved against it, and conservation over whole runs. */
module InMemoryQueue {
  import opened Wrappers
  import opened TaskQueue
  import RedisQueue

  const DEDUP_TTL_MS: nat := 86_400_000
  const RETRY_BACKOFF_MS: nat := 2000

  /** A dequeue that has not been answered; `timed` when it set a timer. */
  datatype Waiter = Waiter(id: nat, timed: bool)

  /** `answers` holds what each dequeue resolved to; `accepted` and `acked` count the task
      ids that went in and the ones acknowledged, and are never read by an operation. */
  datatype Queue = Queue(
    pending: seq<Task>,
    inFlight: map<TaskId, Task>,
    waiters: seq<Waiter>,
    dead: seq<Task>,
    dedupKeys: map<string, nat>,
    answers: map<nat, Option<Task>>,
    accepted: multiset<TaskId>,
    acked: multiset<TaskId>)

  function Empty(): Queue {
    Queue([], map[], [], [], map[], map[], multiset{}, multiset{})
  }

  function RemoveAt<T>(s: seq<T>, i: nat): seq<T>
    requires i < |s|
  {
    s[..i] + s[i + 1..]
  }

  /** The position of the first due task, or the length when none is due. */
  function FirstDue(pending: seq<Task>, now: nat): (i: nat)
    ensures i <= |pending| && (i < |pending| ==> IsDue(pending[i], now))
    ensures forall j :: 0 <= j < i ==> !IsDue(pending[j], now)
  {
    if pending == [] || IsDue(pending[0], now) then 0 else 1 + FirstDue(pending[1..], now)
  }

  /** The position of the first dead letter of a task, or the length. */
  function FindDead(dead: seq<Task>, id: TaskId): (i: nat)
    ensures i <= |dead| && (i < |dead| ==> dead[i].taskId == id)
    ensures forall j :: 0 <= j < i ==> dead[j].taskId != id
  {
    if dead == [] || dead[0].taskId == id then 0 else 1 + FindDead(dead[1..], id)
  }

  // ---------------------------------------------------------------------------
  // The operations
  // ---------------------------------------------------------------------------

  datatype Op =
    | Enqueue(task: Task, now: nat)
    | Dequeue(waiter: Waiter, now: nat)
    | TimerFires(id: nat)
    | Ack(taskId: TaskId)
    | Nack(taskId: TaskId, now: nat)
    | DeadLetterRetry(taskId: TaskId, now: nat)

  /** Hand the i-th pending task to the dequeue `id`. */
  function Deliver(q: Queue, i: nat, id: nat): Queue
    requires i < |q.pending|
  {
    var t := q.pending[i];
    q.(pending := RemoveAt(q.pending, i), inFlight := q.inFlight[t.taskId := t],
       answers := q.answers[id := Some(t)])
  }

  /** _notifyNext: the longest waiting dequeue gets the first due task, if there is one. */
  function NotifyNext(q: Queue, now: nat): Queue {
    var i := FirstDue(q.pending, now);
    if q.waiters == [] || i == |q.pending| then q
    else Deliver(q, i, q.waiters[0].id).(waiters := q.waiters[1..])
  }

  /** The key has been used within the last day. A stored time of zero does not count, and
      neither does an empty key. */
  predicate Duplicate(q: Queue, t: Task, now: nat) {
    HasKey(t) && t.idempotencyKey.value in q.dedupKeys
    && var prev := q.dedupKeys[t.idempotencyKey.value]; prev != 0 && now - prev < DEDUP_TTL_MS
  }

  predicate HasKey(t: Task) { t.idempotencyKey.Some? && t.idempotencyKey.value != "" }

  function Accept(q: Queue, t: Task, now: nat): Queue {
    q.(pending := q.pending + [t],
       dedupKeys := if HasKey(t) then q.dedupKeys[t.idempotencyKey.value := now] else q.dedupKeys,
       accepted := q.accepted + multiset{t.taskId})
  }

  /** The task as a nack gives it back: one more attempt and, unless that was the last, a
      due time. */
  function Failed(t: Task, now: nat): Task {
    var attempts := t.attempts + 1;
    if IsTerminalAttempt(t.attempts, DEFAULT_MAX_ATTEMPTS) then t.(attempts := attempts)
    else t.(attempts := attempts, dueAt := Some(now + Backoff(RETRY_BACKOFF_MS, attempts)))
  }

  /** What an operation does before it looks for a waiter to serve. */
  function Change(q: Queue, op: Op): Queue {
    match op
    case Enqueue(t, now) => if Duplicate(q, t, now) then q else Accept(q, t, now)
    case Dequeue(w, now) =>
      var i := FirstDue(q.pending, now);
      if i < |q.pending| then q else q.(waiters := q.waiters + [w])
    case TimerFires(id) =>
      if Waiter(id, true) in q.waiters then
        q.(waiters := Without(q.waiters, Waiter(id, true)), answers := q.answers[id := None])
      else q
    case Ack(id) =>
      if id !in q.inFlight then q
      else q.(inFlight := q.inFlight - {id}, acked := q.acked + multiset{id})
    case Nack(id, now) =>
      if id !in q.inFlight then q
      else
        var t := Failed(q.inFlight[id], now);
        if IsTerminalAttempt(q.inFlight[id].attempts, DEFAULT_MAX_ATTEMPTS)
        then q.(inFlight := q.inFlight - {id}, dead := q.dead + [t])
        else q.(inFlight := q.inFlight - {id}, pending := q.pending + [t])
    case DeadLetterRetry(id, now) =>
      var i := FindDead(q.dead, id);
      if i == |q.dead| then q
      else q.(dead := RemoveAt(q.dead, i), pending := [Retried(q.dead[i])] + q.pending)
  }

  function Retried(t: Task): Task { t.(attempts := 0, dueAt := None) }

  /** The first occurrence of `w` taken out. */
  function Without(ws: seq<Waiter>, w: Waiter): seq<Waiter> {
    if ws == [] then [] else if ws[0] == w then ws[1..] else [ws[0]] + Without(ws[1..], w)
  }

  /** Whether the operation then runs _notifyNext. */
  predicate Notifies(q: Queue, op: Op) {
    match op
    case Enqueue(t, now) => !Duplicate(q, t, now)
    case Dequeue(_, now) => FirstDue(q.pending, now) == |q.pending|
    case Nack(id, _) => id in q.inFlight && !IsTerminalAttempt(q.inFlight[id].attempts, DEFAULT_MAX_ATTEMPTS)
    case DeadLetterRetry(id, _) => FindDead(q.dead, id) < |q.dead|
    case _ => false
  }

  function Now(op: Op): nat {
    if op.TimerFires? || op.Ack? then 0 else op.now
  }

  /** What the operation hands out: the position in the queue left by Change and the
      dequeue that gets it. */
  function Handed(q: Queue, op: Op): Option<(nat, nat)> {
    var q1 := Change(q, op);
    if op.Dequeue? && FirstDue(q.pending, op.now) < |q.pending| then
      Some((FirstDue(q.pending, op.now), op.waiter.id))
    else if Notifies(q, op) && q1.waiters != [] && FirstDue(q1.pending, Now(op)) < |q1.pending| then
      Some((FirstDue(q1.pending, Now(op)), q1.waiters[0].id))
    else None
  }

  function Step(q: Queue, op: Op): Queue {
    var q1 := Change(q, op);
    if op.Dequeue? && FirstDue(q.pending, op.now) < |q.pending| then
      Deliver(q, FirstDue(q.pending, op.now), op.waiter.id)
    else if Notifies(q, op) then NotifyNext(q1, Now(op))
    else q1
  }

  // ---------------------------------------------------------------------------
  // Conservation
  // ---------------------------------------------------------------------------

  function Ids(s: seq<Task>): multiset<TaskId> {
    if s == [] then multiset{} else multiset{s[0].taskId} + Ids(s[1..])
  }

  function Live(q: Queue): multiset<TaskId> {
    Ids(q.pending) + multiset(q.inFlight.Keys) + Ids(q.dead)
  }

  /** With nothing due a waiter stays where it is. */
  lemma NothingDue(q: Queue, now: nat)
    requires FirstDue(q.pending, now) == |q.pending|
    ensures NotifyNext(q, now) == q
  {
  }

  /** Every accepted task is pending, in flight, dead or acknowledged, once each. */
  predicate Conserved(q: Queue) {
    Live(q) + q.acked == q.accepted
  }

  predicate KeysMatch(q: Queue) {
    forall id :: id in q.inFlight ==> q.inFlight[id].taskId == id
  }

  lemma {:induction false} IdsAppend(s: seq<Task>, u: seq<Task>)
    ensures Ids(s + u) == Ids(s) + Ids(u)
  {
    if s == [] {
      assert s + u == u;
    } else {
      assert (s + u)[1..] == s[1..] + u;
      IdsAppend(s[1..], u);
    }
  }

  lemma IdsOne(t: Task)
    ensures Ids([t]) == multiset{t.taskId}
  {
  }

  lemma IdsRemove(s: seq<Task>, i: nat)
    requires i < |s|
    ensures Ids(s) == Ids(RemoveAt(s, i)) + multiset{s[i].taskId}
  {
    hide Ids;
    assert s == s[..i] + s[i..];
    assert s[i..] == [s[i]] + s[i + 1..];
    IdsAppend(s[..i], s[i..]);
    IdsAppend([s[i]], s[i + 1..]);
    IdsOne(s[i]);
    IdsAppend(s[..i], s[i + 1..]);
  }

  lemma {:induction false} IdsHas(s: seq<Task>, i: nat)
    requires i < |s|
    ensures s[i].taskId in Ids(s)
  {
    IdsRemove(s, i);
  }

  lemma DeliverFresh(q: Queue, i: nat, id: nat)
    requires i < |q.pending| && Conserved(q) && q.pending[i].taskId !in q.inFlight
    ensures Conserved(Deliver(q, i, id))
  {
    hide Ids, RemoveAt;
    var t := q.pending[i];
    IdsRemove(q.pending, i);
    var keys' := q.inFlight[t.taskId := t].Keys;
    assert keys' == q.inFlight.Keys + {t.taskId};
    assert multiset(keys') == multiset(q.inFlight.Keys) + multiset{t.taskId};
  }

  lemma DeliverOverwrites(q: Queue, i: nat, id: nat)
    requires i < |q.pending| && Conserved(q) && q.pending[i].taskId in q.inFlight
    ensures !Conserved(Deliver(q, i, id))
  {
    hide Ids, RemoveAt;
    var t := q.pending[i];
    IdsRemove(q.pending, i);
    var q' := Deliver(q, i, id);
    assert q'.inFlight.Keys == q.inFlight.Keys;
    var rest := RemoveAt(q.pending, i);
    assert Ids(q.pending)[t.taskId] == Ids(rest)[t.taskId] + 1;
    assert Live(q)[t.taskId] == Live(q')[t.taskId] + 1;
    assert (Live(q') + q'.acked)[t.taskId] + 1 == (Live(q) + q.acked)[t.taskId];
  }

  /** A delivery conserves tasks if and only if the delivered id is not already in flight:
      the map would overwrite the task that is. */
  lemma DeliverConserves(q: Queue, i: nat, id: nat)
    requires i < |q.pending| && Conserved(q)
    ensures Conserved(Deliver(q, i, id)) <==> q.pending[i].taskId !in q.inFlight
  {
    hide Conserved, Deliver;
    if q.pending[i].taskId in q.inFlight { DeliverOverwrites(q, i, id); } else { DeliverFresh(q, i, id); }
  }

  lemma AckConserves(q: Queue, id: TaskId)
    requires Conserved(q) && id in q.inFlight
    ensures Conserved(q.(inFlight := q.inFlight - {id}, acked := q.acked + multiset{id}))
  {
    hide Ids;
    var q1 := q.(inFlight := q.inFlight - {id}, acked := q.acked + multiset{id});
    assert multiset(q.inFlight.Keys) == multiset(q1.inFlight.Keys) + multiset{id};
  }

  lemma NackConserves(q: Queue, id: TaskId, t: Task)
    requires Conserved(q) && id in q.inFlight && t.taskId == id
    ensures Conserved(q.(inFlight := q.inFlight - {id}, dead := q.dead + [t]))
    ensures Conserved(q.(inFlight := q.inFlight - {id}, pending := q.pending + [t]))
  {
    hide Ids;
    var rest := (q.inFlight - {id}).Keys;
    assert multiset(q.inFlight.Keys) == multiset(rest) + multiset{id};
    IdsAppend(q.pending, [t]);
    IdsAppend(q.dead, [t]);
    IdsOne(t);
  }

  lemma RetryConserves(q: Queue, i: nat)
    requires Conserved(q) && i < |q.dead|
    ensures Conserved(q.(dead := RemoveAt(q.dead, i), pending := [Retried(q.dead[i])] + q.pending))
  {
    hide Ids, RemoveAt;
    IdsRemove(q.dead, i);
    IdsAppend([Retried(q.dead[i])], q.pending);
    IdsOne(Retried(q.dead[i]));
  }

  lemma AcceptConserves(q: Queue, t: Task, now: nat)
    requires Conserved(q)
    ensures Conserved(Accept(q, t, now))
  {
    hide Ids;
    IdsAppend(q.pending, [t]);
    IdsOne(t);
  }

  lemma ChangeKeysMatch(q: Queue, op: Op)
    requires KeysMatch(q)
    ensures KeysMatch(Change(q, op))
  {
    hide Duplicate, Without, Backoff, IsTerminalAttempt, RemoveAt, FirstDue, FindDead;
  }

  lemma SameTasks(q: Queue, q': Queue)
    requires Conserved(q) && q'.pending == q.pending && q'.inFlight == q.inFlight && q'.dead == q.dead
    requires q'.accepted == q.accepted && q'.acked == q.acked
    ensures Conserved(q')
  {
    hide Ids;
  }

  lemma ChangeByNack(q: Queue, id: TaskId, now: nat)
    requires Conserved(q) && KeysMatch(q)
    ensures Conserved(Change(q, Nack(id, now)))
  {
    hide Conserved, IsTerminalAttempt, Backoff;
    if id in q.inFlight { NackConserves(q, id, Failed(q.inFlight[id], now)); }
  }

  lemma ChangeByRetry(q: Queue, id: TaskId, now: nat)
    requires Conserved(q)
    ensures Conserved(Change(q, DeadLetterRetry(id, now)))
  {
    hide Conserved, RemoveAt, Retried;
    if FindDead(q.dead, id) < |q.dead| { RetryConserves(q, FindDead(q.dead, id)); }
  }

  lemma ChangeByEnqueue(q: Queue, t: Task, now: nat)
    requires Conserved(q)
    ensures Conserved(Change(q, Enqueue(t, now)))
  {
    hide Conserved, Accept, Duplicate;
    AcceptConserves(q, t, now);
  }

  lemma ChangeByAck(q: Queue, id: TaskId)
    requires Conserved(q)
    ensures Conserved(Change(q, Ack(id)))
  {
    hide Conserved;
    if id in q.inFlight { AckConserves(q, id); }
  }

  lemma ChangeOfWaiters(q: Queue, op: Op)
    requires Conserved(q) && (op.Dequeue? || op.TimerFires?)
    ensures Conserved(Change(q, op))
  {
    hide Conserved, FirstDue, Without;
    SameTasks(q, Change(q, op));
  }

  lemma ChangeConserves(q: Queue, op: Op)
    requires Conserved(q) && KeysMatch(q)
    ensures Conserved(Change(q, op)) && KeysMatch(Change(q, op))
  {
    hide *;
    ChangeKeysMatch(q, op);
    match op
    case Enqueue(t, now) => ChangeByEnqueue(q, t, now);
    case Dequeue(_, _) => ChangeOfWaiters(q, op);
    case TimerFires(_) => ChangeOfWaiters(q, op);
    case Ack(id) => ChangeByAck(q, id);
    case Nack(id, now) => ChangeByNack(q, id, now);
    case DeadLetterRetry(id, now) => ChangeByRetry(q, id, now);
  }

  lemma StepIsChangeThenDeliver(q: Queue, op: Op)
    ensures Handed(q, op).None? ==> Step(q, op) == Change(q, op)
    ensures Handed(q, op).Some? ==>
              var (i, id) := Handed(q, op).value;
              var q1 := Change(q, op);
              && i < |q1.pending| && IsDue(q1.pending[i], Now(op))
              && (forall j :: 0 <= j < i ==> !IsDue(q1.pending[j], Now(op)))
              && Step(q, op) == Deliver(q1, i, id).(waiters := Step(q, op).waiters)
  {
    hide Duplicate;
  }

  /** The exact condition, for any queue and operation: no task is lost or doubled unless
      the operation hands out a task whose id is in flight at that moment. */
  lemma StepConservesUnlessOverwriting(q: Queue, op: Op)
    requires Conserved(q) && KeysMatch(q)
    ensures KeysMatch(Step(q, op))
    ensures var q1 := Change(q, op);
            Conserved(Step(q, op))
            <==> (Handed(q, op).Some? ==> q1.pending[Handed(q, op).value.0].taskId !in q1.inFlight)
  {
    hide Change, Step, Handed, Ids;
    ChangeConserves(q, op);
    StepIsChangeThenDeliver(q, op);
    if Handed(q, op).Some? {
      var (i, id) := Handed(q, op).value;
      DeliverConserves(Change(q, op), i, id);
    }
  }

  /** Accepting a second task with the id of one in flight, then delivering it, loses the
      first: one task remains for two accepted. */
  lemma DuplicateIdLosesTask()
    ensures var t := Task("a", 0, None, None);
            var q := Step(Step(Step(Step(Empty(), Enqueue(t, 1)), Dequeue(Waiter(0, false), 2)),
                               Enqueue(t, 3)), Dequeue(Waiter(1, false), 4));
            q.accepted == multiset{"a", "a"} && Live(q) == multiset{"a"} && q.acked == multiset{}
  {
    var t := Task("a", 0, None, None);
    var q1 := Step(Empty(), Enqueue(t, 1));
    assert q1.pending == [t] && FirstDue(q1.pending, 2) == 0;
    var q2 := Step(q1, Dequeue(Waiter(0, false), 2));
    assert q2.pending == [] && q2.inFlight == map["a" := t];
    var q3 := Step(q2, Enqueue(t, 3));
    assert q3.pending == [t] && q3.waiters == [] && FirstDue(q3.pending, 4) == 0;
    var q4 := Step(q3, Dequeue(Waiter(1, false), 4));
    assert q4.pending == [] && q4.dead == [];
    assert q4.inFlight.Keys == {"a"};
  }

  // ---------------------------------------------------------------------------
  // Runs with distinct live ids
  // ---------------------------------------------------------------------------

  /** An enqueued task is new and its id is not in use; every dequeue call is a new one. */
  predicate Admissible(q: Queue, op: Op) {
    match op
    case Enqueue(t, _) => t.attempts == 0 && t.taskId !in Live(q)
    case Dequeue(w, _) => w.id !in q.answers && forall other :: other in q.waiters ==> other.id != w.id
    case _ => true
  }

  function Run(ops: seq<Op>): Option<Queue> {
    if ops == [] then Some(Empty())
    else
      var n := |ops| - 1;
      var q := Run(ops[..n]);
      if q.Some? && Admissible(q.value, ops[n]) then Some(Step(q.value, ops[n])) else None
  }

  predicate Distinct(q: Queue) {
    forall id :: id in Live(q) ==> Live(q)[id] == 1
  }

  predicate AttemptsOk(q: Queue) {
    && (forall i :: 0 <= i < |q.pending| ==> q.pending[i].attempts < DEFAULT_MAX_ATTEMPTS)
    && (forall id :: id in q.inFlight ==> q.inFlight[id].attempts < DEFAULT_MAX_ATTEMPTS)
    && (forall i :: 0 <= i < |q.dead| ==> q.dead[i].attempts == DEFAULT_MAX_ATTEMPTS)
  }

  /** A dequeue is waiting or answered, never both, and waits once. */
  predicate WaitersOk(q: Queue) {
    && (forall w :: w in q.waiters ==> w.id !in q.answers)
    && DistinctIds(q.waiters)
  }

  predicate Inv(q: Queue) {
    Conserved(q) && KeysMatch(q) && Distinct(q) && AttemptsOk(q) && WaitersOk(q)
  }

  lemma DistinctMeansNoOverwrite(q: Queue, i: nat)
    requires Distinct(q) && i < |q.pending|
    ensures q.pending[i].taskId !in q.inFlight
  {
    IdsHas(q.pending, i);
    var id := q.pending[i].taskId;
    assert id in q.inFlight ==> multiset(q.inFlight.Keys)[id] == 1;
    assert Live(q)[id] == Ids(q.pending)[id] + multiset(q.inFlight.Keys)[id] + Ids(q.dead)[id];
  }

  /** Conservation pins down what is live. */
  lemma LiveCount(q: Queue, id: TaskId)
    requires Conserved(q)
    ensures Live(q)[id] == q.accepted[id] - q.acked[id]
  {
    hide Live;
    assert (Live(q) + q.acked)[id] == Live(q)[id] + q.acked[id];
  }

  lemma ChangeDistinct(q: Queue, op: Op)
    requires Inv(q) && Admissible(q, op)
    ensures Distinct(Change(q, op))
  {
    hide Live, Conserved, Distinct, AttemptsOk, WaitersOk, KeysMatch, Duplicate, Without, FirstDue, FindDead, Backoff;
    var q1 := Change(q, op);
    ChangeConserves(q, op);
    forall id | id in Live(q1) ensures Live(q1)[id] == 1 {
      LiveCount(q, id);
      LiveCount(q1, id);
      DistinctAt(q, id);
    }
    DistinctIs(q1);
  }

  lemma DistinctAt(q: Queue, id: TaskId)
    requires Distinct(q)
    ensures Live(q)[id] <= 1
  {
    hide Live;
    if id in Live(q) { assert Live(q)[id] == 1; } else { assert Live(q)[id] == 0; }
  }

  lemma DistinctIs(q: Queue)
    requires forall id :: id in Live(q) ==> Live(q)[id] == 1
    ensures Distinct(q)
  {
  }

  predicate DistinctIds(ws: seq<Waiter>) {
    forall i, j :: 0 <= i < j < |ws| ==> ws[i].id != ws[j].id
  }

  lemma {:induction false} WithoutKeeps(ws: seq<Waiter>, w: Waiter)
    requires DistinctIds(ws)
    ensures var r := Without(ws, w);
            && DistinctIds(r) && (forall x :: x in r ==> x in ws)
            && (w in ws ==> forall x :: x in r ==> x.id != w.id)
  {
    if ws != [] && ws[0] != w {
      WithoutKeeps(ws[1..], w);
      var r := Without(ws[1..], w);
      forall j | 0 <= j < |r| ensures r[j].id != ws[0].id {
        assert r[j] in ws[1..];
        var k :| 0 <= k < |ws[1..]| && ws[1..][k] == r[j];
        assert ws[k + 1] == r[j];
      }
    }
  }

  lemma {:induction false} WithoutAt(ws: seq<Waiter>, w: Waiter, i: nat)
    requires i < |ws| && ws[i] == w && w !in ws[..i]
    ensures Without(ws, w) == RemoveAt(ws, i)
  {
    if i > 0 {
      assert ws[0] == ws[..i][0];
      assert ws[1..][..i - 1] == ws[..i][1..];
      WithoutAt(ws[1..], w, i - 1);
    }
  }

  lemma ChangeAttempts(q: Queue, op: Op)
    requires AttemptsOk(q) && (op.Enqueue? ==> op.task.attempts == 0)
    ensures AttemptsOk(Change(q, op))
  {
    hide Duplicate, Without, Backoff;
  }

  lemma ChangeWaiters(q: Queue, op: Op)
    requires WaitersOk(q) && Admissible(q, op)
    ensures WaitersOk(Change(q, op))
  {
    hide Duplicate, Without, Backoff, Live;
    if op.TimerFires? { WithoutKeeps(q.waiters, Waiter(op.id, true)); }
  }

  lemma StepWaiters(q: Queue, op: Op)
    requires WaitersOk(Change(q, op)) && WaitersOk(q) && Admissible(q, op)
    ensures WaitersOk(Step(q, op))
  {
    hide Change, Notifies, Live, WaitersOk, FirstDue;
    if op.Dequeue? && FirstDue(q.pending, op.now) < |q.pending| {
      DeliverWaiters(q, FirstDue(q.pending, op.now), op.waiter.id);
    } else if Notifies(q, op) {
      NotifyWaiters(Change(q, op), Now(op));
    }
  }

  lemma DeliverWaiters(q: Queue, i: nat, id: nat)
    requires WaitersOk(q) && i < |q.pending| && forall w :: w in q.waiters ==> w.id != id
    ensures WaitersOk(Deliver(q, i, id))
  {
  }

  lemma NotifyWaiters(q: Queue, now: nat)
    requires WaitersOk(q)
    ensures WaitersOk(NotifyNext(q, now))
  {
    hide RemoveAt;
    if q.waiters != [] {
      assert forall i :: 0 < i < |q.waiters| ==> q.waiters[i].id != q.waiters[0].id;
      assert forall w :: w in q.waiters[1..] ==> w in q.waiters && w.id != q.waiters[0].id;
    }
  }

  lemma DeliverKeeps(q: Queue, i: nat, id: nat)
    requires i < |q.pending| && Conserved(q) && Distinct(q) && AttemptsOk(q)
    ensures var q' := Deliver(q, i, id); Conserved(q') && Distinct(q') && AttemptsOk(q')
  {
    hide Live, Conserved, Distinct;
    DistinctMeansNoOverwrite(q, i);
    DeliverConserves(q, i, id);
    LiveSame(q, Deliver(q, i, id));
  }

  lemma LiveSame(q: Queue, q': Queue)
    requires Conserved(q) && Conserved(q') && Distinct(q)
    requires q'.accepted == q.accepted && q'.acked == q.acked
    ensures Distinct(q')
  {
    hide Live, Conserved, Distinct;
    forall id | id in Live(q') ensures Live(q')[id] == 1 {
      LiveCount(q, id);
      LiveCount(q', id);
      DistinctAt(q, id);
    }
    DistinctIs(q');
  }

  lemma StepKeepsInv(q: Queue, op: Op)
    requires Inv(q) && Admissible(q, op)
    ensures Inv(Step(q, op))
  {
    hide Change, Step, Handed, Conserved, Distinct, AttemptsOk, WaitersOk, KeysMatch, Live;
    var q1 := Change(q, op);
    ChangeConserves(q, op);
    ChangeDistinct(q, op);
    ChangeAttempts(q, op);
    ChangeWaiters(q, op);
    StepWaiters(q, op);
    StepIsChangeThenDeliver(q, op);
    StepConservesUnlessOverwriting(q, op);
    if Handed(q, op).Some? {
      var (i, id) := Handed(q, op).value;
      var q2 := Deliver(q1, i, id);
      DeliverKeeps(q1, i, id);
      SameButWaiters(q2, Step(q, op));
    }
  }

  lemma SameButWaiters(q: Queue, q': Queue)
    requires q' == q.(waiters := q'.waiters) && Conserved(q) && Distinct(q) && AttemptsOk(q)
    ensures Conserved(q') && Distinct(q') && AttemptsOk(q')
  {
    hide Ids;
  }

  /** After any run of operations that enqueue fresh tasks under ids not in use: pending,
      in-flight, dead and acknowledged tasks partition the accepted ones, a task that is not
      dead has failed fewer than five times and a dead one exactly five, and no dequeue is
      answered twice. */
  lemma {:induction false} RunPartitions(ops: seq<Op>)
    requires Run(ops).Some?
    ensures Inv(Run(ops).value)
  {
    hide Step, Inv, Admissible;
    if ops == [] {
      EmptyInv();
    } else {
      RunPartitions(ops[..|ops| - 1]);
      StepKeepsInv(Run(ops[..|ops| - 1]).value, ops[|ops| - 1]);
    }
  }

  lemma EmptyInv()
    ensures Inv(Empty())
  {
  }

  /** A nack dead-letters exactly on the terminal attempt, and otherwise leaves the copy the
      Redis driver would have written with the same settings. */
  lemma NackMirrorsRedis(q: Queue, id: TaskId, now: nat)
    requires id in q.inFlight
    ensures var t := q.inFlight[id];
            var q1 := Change(q, Nack(id, now));
            && id !in q1.inFlight
            && (q1.dead != q.dead <==> IsTerminalAttempt(t.attempts, DEFAULT_MAX_ATTEMPTS))
            && (q1.dead != q.dead ==> q1.dead == q.dead + [RedisQueue.Bumped(t)] && q1.pending == q.pending)
            && (q1.dead == q.dead ==> q1.pending == q.pending + [RedisQueue.NackCopy(
                                        RedisQueue.Config(DEFAULT_MAX_ATTEMPTS, RETRY_BACKOFF_MS), t, now)])
  {
    hide Backoff;
    assert |q.dead + [Failed(q.inFlight[id], now)]| == |q.dead| + 1;
  }

  /** A nacked task cannot be handed out again before its delay is over. */
  lemma NackedTaskIsHidden(t: Task, now: nat, later: nat)
    requires !IsTerminalAttempt(t.attempts, DEFAULT_MAX_ATTEMPTS)
    ensures IsDue(Failed(t, now), later) <==> later >= now + Backoff(RETRY_BACKOFF_MS, t.attempts + 1)
    ensures !IsDue(Failed(t, now), now)
  {
    BackoffDoubles(RETRY_BACKOFF_MS, t.attempts + 1);
  }

  /** A retried dead letter is at once the next to be handed out, with a fresh budget. */
  lemma RetriedGoesFirst(q: Queue, id: TaskId, now: nat, w: Waiter, later: nat)
    requires q.waiters == [] && exists k :: 0 <= k < |q.dead| && q.dead[k].taskId == id
    ensures var q2 := Step(Step(q, DeadLetterRetry(id, now)), Dequeue(w, later));
            w.id in q2.answers && q2.answers[w.id].Some?
            && var t := q2.answers[w.id].value; t.taskId == id && t.attempts == 0 && t.dueAt.None? && q2.inFlight[id] == t
  {
    hide RemoveAt;
    var i := FindDead(q.dead, id);
    var q1 := Step(q, DeadLetterRetry(id, now));
    assert q1.pending == [Retried(q.dead[i])] + q.pending;
    assert FirstDue(q1.pending, later) == 0;
  }

  /** After a task has been accepted under a key, another one under that key is accepted if
      and only if a day has passed. */
  lemma KeyOncePerDay(q: Queue, t: Task, now: nat, u: Task, later: nat)
    requires HasKey(t) && u.idempotencyKey == t.idempotencyKey && now > 0 && !Duplicate(q, t, now)
    ensures var q1 := Step(q, Enqueue(t, now));
            var q2 := Step(q1, Enqueue(u, later));
            && q1.accepted == q.accepted + multiset{t.taskId}
            && (q2 == q1 <==> later - now < DEDUP_TTL_MS)
            && (q2.accepted == q1.accepted + multiset{u.taskId} <==> later - now >= DEDUP_TTL_MS)
  {
    hide FirstDue, RemoveAt;
    var q1 := Step(q, Enqueue(t, now));
    assert q1.dedupKeys[t.idempotencyKey.value] == now;
    assert (q1.accepted + multiset{u.taskId})[u.taskId] == q1.accepted[u.taskId] + 1;
  }

  // ---------------------------------------------------------------------------
  // Order
  // ---------------------------------------------------------------------------

  /** The tasks without a due time: all but those being retried after a nack. */
  function Fresh(s: seq<Task>): seq<Task> {
    if s == [] then [] else (if s[0].dueAt.None? then [s[0]] else []) + Fresh(s[1..])
  }

  lemma {:induction false} FreshJoin(s: seq<Task>, u: seq<Task>)
    ensures Fresh(s + u) == Fresh(s) + Fresh(u)
  {
    if s == [] {
      assert s + u == u;
    } else {
      assert (s + u)[1..] == s[1..] + u;
      FreshJoin(s[1..], u);
    }
  }

  lemma FreshOne(t: Task)
    ensures Fresh([t]) == if t.dueAt.None? then [t] else []
  {
  }

  /** The task that an operation accepts. */
  function Taken(q: Queue, op: Op): seq<Task> {
    if op.Enqueue? && !Duplicate(q, op.task, op.now) then [op.task] else []
  }

  /** The dead letter that an operation brings back, with a fresh budget. */
  function Revived(q: Queue, op: Op): seq<Task> {
    if op.DeadLetterRetry? && FindDead(q.dead, op.taskId) < |q.dead|
    then [q.dead[FindDead(q.dead, op.taskId)].(attempts := 0, dueAt := None)] else []
  }

  /** The task that a dequeue is answered with in the course of an operation. */
  function Given(q: Queue, op: Op): seq<Task> {
    var answers := Step(q, op).answers;
    if Handed(q, op).Some? && Handed(q, op).value.1 in answers && answers[Handed(q, op).value.1].Some?
    then [answers[Handed(q, op).value.1].value] else []
  }

  /** What comes in: at the end of the queue, or as a retried dead letter at its front. */
  lemma ChangeOrder(q: Queue, op: Op)
    ensures Fresh(Change(q, op).pending) == Revived(q, op) + Fresh(q.pending) + Fresh(Taken(q, op))
  {
    hide Duplicate, Backoff;
    match op
    case Enqueue(t, _) => FreshJoin(q.pending, [t]);
    case Nack(id, now) =>
      if id in q.inFlight && !IsTerminalAttempt(q.inFlight[id].attempts, DEFAULT_MAX_ATTEMPTS) {
        FreshJoin(q.pending, [Failed(q.inFlight[id], now)]);
        FreshOne(Failed(q.inFlight[id], now));
      }
    case DeadLetterRetry(id, _) =>
      var i := FindDead(q.dead, id);
      if i < |q.dead| {
        FreshJoin([Retried(q.dead[i])], q.pending);
        FreshOne(Retried(q.dead[i]));
      }
    case _ =>
  }

  /** What goes out was the first, if it is fresh. */
  lemma FirstFresh(s: seq<Task>, i: nat)
    requires i < |s| && forall j :: 0 <= j < i ==> s[j].dueAt.Some?
    ensures Fresh(s) == Fresh([s[i]]) + Fresh(RemoveAt(s, i))
  {
    hide Fresh;
    NoneFresh(s[..i]);
    assert s == s[..i] + s[i..];
    assert s[i..] == [s[i]] + s[i + 1..];
    FreshJoin(s[..i], s[i..]);
    FreshJoin([s[i]], s[i + 1..]);
    FreshJoin(s[..i], s[i + 1..]);
  }

  lemma {:induction false} NoneFresh(s: seq<Task>)
    requires forall j :: 0 <= j < |s| ==> s[j].dueAt.Some?
    ensures Fresh(s) == []
  {
    if s != [] { NoneFresh(s[1..]); }
  }

  lemma GivenIs(q: Queue, op: Op)
    ensures if Handed(q, op).None? then Given(q, op) == []
            else
              var (i, id) := Handed(q, op).value;
              && i < |Change(q, op).pending| && Given(q, op) == [Change(q, op).pending[i]]
              && Step(q, op).pending == RemoveAt(Change(q, op).pending, i)
              && var t := Given(q, op)[0]; t.taskId in Step(q, op).inFlight && Step(q, op).inFlight[t.taskId] == t
  {
    hide Change, Handed, Step, RemoveAt;
    StepIsChangeThenDeliver(q, op);
  }

  /** One operation: retried dead letters come first, then the fresh tasks in the order they
      were in, then one that it accepts; and what it hands out is the first of these, or a
      task with a due time. */
  lemma StepInOrder(q: Queue, op: Op)
    ensures Revived(q, op) + Fresh(q.pending) + Fresh(Taken(q, op)) == Fresh(Given(q, op)) + Fresh(Step(q, op).pending)
  {
    hide Change, Handed, Step, RemoveAt, Given, Taken, Revived, Fresh;
    ChangeOrder(q, op);
    GivenIs(q, op);
    StepIsChangeThenDeliver(q, op);
    if Handed(q, op).Some? {
      FirstFresh(Change(q, op).pending, Handed(q, op).value.0);
    } else {
      NoneFresh([]);
    }
  }

  function TakenIn(ops: seq<Op>): seq<Task>
    requires Run(ops).Some?
  {
    if ops == [] then []
    else var n := |ops| - 1; TakenIn(ops[..n]) + Taken(Run(ops[..n]).value, ops[n])
  }

  function GivenIn(ops: seq<Op>): seq<Task>
    requires Run(ops).Some?
  {
    if ops == [] then []
    else var n := |ops| - 1; GivenIn(ops[..n]) + Given(Run(ops[..n]).value, ops[n])
  }

  /** First in, first out: as long as no dead letter is retried, the fresh tasks handed out so
      far and then those still pending are the fresh tasks accepted so far, in that order. */
  lemma {:induction false} FirstInFirstOut(ops: seq<Op>)
    requires Run(ops).Some? && forall k :: 0 <= k < |ops| ==> !ops[k].DeadLetterRetry?
    ensures Fresh(TakenIn(ops)) == Fresh(GivenIn(ops)) + Fresh(Run(ops).value.pending)
  {
    hide Step, Admissible, Fresh, Given, Taken;
    if ops == [] {
      NoneFresh([]);
    } else {
      var n := |ops| - 1;
      FirstInFirstOut(ops[..n]);
      var q := Run(ops[..n]).value;
      StepInOrder(q, ops[n]);
      assert Revived(q, ops[n]) + Fresh(q.pending) == Fresh(q.pending);
      FreshJoin(TakenIn(ops[..n]), Taken(q, ops[n]));
      FreshJoin(GivenIn(ops[..n]), Given(q, ops[n]));
      var before, taken, given := Fresh(GivenIn(ops[..n])), Fresh(Taken(q, ops[n])), Fresh(Given(q, ops[n]));
      assert (before + Fresh(q.pending)) + taken == before + (Fresh(q.pending) + taken);
      assert before + (given + Fresh(Run(ops).value.pending)) == (before + given) + Fresh(Run(ops).value.pending);
    }
  }

  /** The waiting dequeues are served in the order they came: a new one is answered at once
      with a due task, or joins the line, of which the first is the next to be answered. */
  lemma WaitersInOrder(q: Queue, op: Op)
    requires !op.TimerFires?
    ensures if op.Dequeue? && exists j :: 0 <= j < |q.pending| && IsDue(q.pending[j], op.now)
            then Step(q, op).waiters == q.waiters && Handed(q, op).Some? && Handed(q, op).value.1 == op.waiter.id
            else
              var line := q.waiters + if op.Dequeue? then [op.waiter] else [];
              if Handed(q, op).None? then Step(q, op).waiters == line
              else line == [line[0]] + Step(q, op).waiters && Handed(q, op).value.1 == line[0].id
  {
    hide RemoveAt, FirstDue, IsDue, Deliver, Change, Notifies;
    ChangeLine(q, op);
    if op.Dequeue? { SomeDue(q.pending, op.now); }
    DeliverOnlyTasks();
  }

  lemma ChangeLine(q: Queue, op: Op)
    requires !op.TimerFires?
    ensures Change(q, op).waiters
         == q.waiters + if op.Dequeue? && FirstDue(q.pending, op.now) == |q.pending| then [op.waiter] else []
  {
    hide Duplicate, RemoveAt, FirstDue, Backoff, FindDead, Failed, IsTerminalAttempt;
  }

  lemma SomeDue(s: seq<Task>, now: nat)
    ensures (exists j :: 0 <= j < |s| && IsDue(s[j], now)) <==> FirstDue(s, now) < |s|
  {
  }

  /** A delivery leaves the line to the operation around it. */
  lemma DeliverOnlyTasks()
    ensures forall r: Queue, i: nat, id: nat :: i < |r.pending| ==> Deliver(r, i, id).waiters == r.waiters
  {
  }

  /** Nobody waits while a task is due. */
  predicate NobodyWaitsInVain(q: Queue, now: nat) { q.waiters == [] || NothingIsDue(q.pending, now) }

  predicate NothingIsDue(s: seq<Task>, now: nat) { forall j :: 0 <= j < |s| ==> !IsDue(s[j], now) }

  lemma NewOneServed(q: Queue, i: nat, now: nat)
    requires i < |q.pending| && NothingIsDue(RemoveAt(q.pending, i), now)
    ensures NobodyWaitsInVain(NotifyNext(q, now), now)
  {
    hide IsDue;
    var rest := RemoveAt(q.pending, i);
    assert forall j :: 0 <= j < i ==> q.pending[j] == rest[j];
    assert forall j :: i < j < |q.pending| ==> q.pending[j] == rest[j - 1];
    if FirstDue(q.pending, now) < |q.pending| { assert FirstDue(q.pending, now) == i; }
  }

  lemma Inserted(q: Queue, q1: Queue, i: nat, now: nat)
    requires NobodyWaitsInVain(q, now) && q1.waiters == q.waiters && i < |q1.pending| && RemoveAt(q1.pending, i) == q.pending
    ensures NobodyWaitsInVain(NotifyNext(q1, now), now)
  {
    hide NothingIsDue, FirstDue, RemoveAt;
    if q.waiters != [] { NewOneServed(q1, i, now); }
  }

  /** No operation leaves a dequeue waiting beside a due task, unless one waited so before:
      beside a task that has become due by the passing of time alone. */
  lemma NobodyLeftWaiting(q: Queue, op: Op, now: nat)
    requires NobodyWaitsInVain(q, now) && (op.Ack? || op.TimerFires? || op.now == now)
    ensures NobodyWaitsInVain(Step(q, op), now)
  {
    hide Duplicate, Backoff, IsDue, NotifyNext, IsTerminalAttempt, Deliver;
    var q1 := Change(q, op);
    match op
    case Enqueue(t, _) => if !Duplicate(q, t, now) { Inserted(q, q1, |q.pending|, now); }
    case Nack(id, _) => if Notifies(q, op) { Inserted(q, q1, |q.pending|, now); }
    case DeadLetterRetry(id, _) => if Notifies(q, op) { Inserted(q, q1, 0, now); }
    case Dequeue(w, _) => DequeueServes(q, w, now);
    case _ =>
  }

  lemma DequeueServes(q: Queue, w: Waiter, now: nat)
    requires NobodyWaitsInVain(q, now)
    ensures NobodyWaitsInVain(Step(q, Dequeue(w, now)), now)
  {
    hide IsDue;
    if FirstDue(q.pending, now) == |q.pending| { NothingDue(Change(q, Dequeue(w, now)), now); }
  }

  /** A task is the one that was accepted, but for its attempts and due time. */
  predicate SameTask(t: Task, u: Task) { t.taskId == u.taskId && t.idempotencyKey == u.idempotencyKey }

  predicate IsAmong(t: Task, taken: seq<Task>) { exists k :: 0 <= k < |taken| && SameTask(t, taken[k]) }

  predicate AllAmong(s: seq<Task>, taken: seq<Task>) { forall k :: 0 <= k < |s| ==> IsAmong(s[k], taken) }

  predicate Kept(q: Queue, taken: seq<Task>) {
    && AllAmong(q.pending, taken) && AllAmong(q.dead, taken)
    && (forall id :: id in q.inFlight ==> IsAmong(q.inFlight[id], taken))
    && (forall id :: id in q.answers && q.answers[id].Some? ==> IsAmong(q.answers[id].value, taken))
  }

  lemma AmongMore(q: Queue, taken: seq<Task>, more: seq<Task>)
    requires Kept(q, taken)
    ensures Kept(q, taken + more)
  {
    forall t | IsAmong(t, taken) ensures IsAmong(t, taken + more) {
      var k :| 0 <= k < |taken| && SameTask(t, taken[k]);
      assert (taken + more)[k] == taken[k];
    }
  }

  lemma ChangeKeeps(q: Queue, op: Op, taken: seq<Task>)
    requires Kept(q, taken + Taken(q, op))
    ensures Kept(Change(q, op), taken + Taken(q, op))
  {
    hide Duplicate, Backoff, IsAmong, IsTerminalAttempt;
    var all := taken + Taken(q, op);
    forall t, u | SameTask(t, u) && IsAmong(u, all) ensures IsAmong(t, all) { AmongSame(t, u, all); }
    if op.Enqueue? && Taken(q, op) != [] { LastAmong(taken, op.task); }
  }

  lemma AmongSame(t: Task, u: Task, taken: seq<Task>)
    requires SameTask(t, u) && IsAmong(u, taken)
    ensures IsAmong(t, taken)
  {
  }

  lemma LastAmong(taken: seq<Task>, t: Task)
    ensures IsAmong(t, taken + [t])
  {
    assert SameTask(t, (taken + [t])[|taken|]);
  }

  lemma DeliverKeepsTasks(q: Queue, i: nat, id: nat, taken: seq<Task>)
    requires i < |q.pending| && Kept(q, taken)
    ensures Kept(Deliver(q, i, id), taken)
  {
    hide IsAmong;
  }

  /** In every run each task that is pending, in flight, dead or handed out is one that was
      accepted, with its own id and key. */
  lemma {:induction false} TasksStayWhatTheyWere(ops: seq<Op>)
    requires Run(ops).Some?
    ensures Kept(Run(ops).value, TakenIn(ops))
  {
    hide Step, Admissible, Kept, Taken, Change;
    if ops == [] {
      NothingKept();
    } else {
      var n := |ops| - 1;
      var q := Run(ops[..n]).value;
      TasksStayWhatTheyWere(ops[..n]);
      AmongMore(q, TakenIn(ops[..n]), Taken(q, ops[n]));
      ChangeKeeps(q, ops[n], TakenIn(ops[..n]));
      StepIsChangeThenDeliver(q, ops[n]);
      if Handed(q, ops[n]).Some? {
        var (i, id) := Handed(q, ops[n]).value;
        DeliverKeepsTasks(Change(q, ops[n]), i, id, TakenIn(ops));
        SameTasksKept(Deliver(Change(q, ops[n]), i, id), Step(q, ops[n]), TakenIn(ops));
      }
    }
  }

  lemma NothingKept()
    ensures Kept(Empty(), [])
  {
  }

  lemma SameTasksKept(q: Queue, q': Queue, taken: seq<Task>)
    requires Kept(q, taken) && q' == q.(waiters := q'.waiters)
    ensures Kept(q', taken)
  {
  }

  // ---------------------------------------------------------------------------
  // The driver
  // ---------------------------------------------------------------------------

  class InMemoryDriver {
    var pending: seq<Task>
    var inFlight: map<TaskId, Task>
    var waiters: seq<Waiter>
    var dead: seq<Task>
    var dedupKeys: map<string, nat>
    var answers: map<nat, Option<Task>>   // resolved promises
    ghost var accepted: multiset<TaskId>
    ghost var acked: multiset<TaskId>

    ghost function Value(): Queue
      reads this
    {
      Queue(pending, inFlight, waiters, dead, dedupKeys, answers, accepted, acked)
    }

    constructor ()
      ensures Value() == Empty()
    {
      pending, inFlight, waiters, dead, dedupKeys, answers := [], map[], [], [], map[], map[];
      accepted, acked := multiset{}, multiset{};
    }

    /** Take the first due task out of the pending list. */
    method FindDue(now: nat) returns (t: Option<Task>)
      modifies this`pending
      ensures var i := FirstDue(old(pending), now);
              if i == |old(pending)| then t.None? && pending == old(pending)
              else t == Some(old(pending)[i]) && pending == RemoveAt(old(pending), i)
    {
      var i := 0;
      while i < |pending|
        invariant 0 <= i <= |pending| && pending == old(pending)
        invariant FirstDue(pending, now) == i + FirstDue(pending[i..], now)
      {
        if IsDue(pending[i], now) {
          t := Some(pending[i]);
          pending := pending[..i] + pending[i + 1..];
          return;
        }
        i := i + 1;
      }
      t := None;
    }

    method Notify(now: nat)
      modifies this
      ensures Value() == NotifyNext(old(Value()), now)
    {
      if waiters == [] { return; }
      var w := waiters[0];
      waiters := waiters[1..];
      var t := FindDue(now);
      if t.Some? {
        inFlight := inFlight[t.value.taskId := t.value];
        answers := answers[w.id := t];
      } else {
        waiters := [w] + waiters;
      }
    }

    method EnqueueTask(t: Task, now: nat)
      modifies this
      ensures Value() == Step(old(Value()), Enqueue(t, now))
    {
      hide FirstDue, NotifyNext;
      if t.idempotencyKey.Some? && t.idempotencyKey.value != "" {
        var key := t.idempotencyKey.value;
        if key in dedupKeys && dedupKeys[key] != 0 && now - dedupKeys[key] < DEDUP_TTL_MS { return; }
        dedupKeys := dedupKeys[key := now];
      }
      pending := pending + [t];
      accepted := accepted + multiset{t.taskId};
      Notify(now);
    }

    /** None when the caller is left waiting: its answer arrives in `answers`. */
    method DequeueTask(w: Waiter, now: nat) returns (t: Option<Task>)
      modifies this
      ensures Value() == Step(old(Value()), Dequeue(w, now))
      ensures t.Some? ==> w.id in answers && answers[w.id] == t && IsDue(t.value, now)
      ensures t.None? ==> w in waiters && forall k :: 0 <= k < |pending| ==> !IsDue(pending[k], now)
    {
      hide FirstDue, NotifyNext, RemoveAt;
      t := FindDue(now);
      if t.Some? {
        inFlight := inFlight[t.value.taskId := t.value];
        answers := answers[w.id := t];
        return;
      }
      waiters := waiters + [w];
      NothingDue(Value(), now);
      Notify(now);
    }

    method FireTimer(id: nat)
      modifies this
      ensures Value() == Step(old(Value()), TimerFires(id))
    {
      var i := 0;
      while i < |waiters|
        invariant 0 <= i <= |waiters| && Value() == old(Value())
        invariant Waiter(id, true) !in waiters[..i]
      {
        if waiters[i] == Waiter(id, true) {
          WithoutAt(waiters, Waiter(id, true), i);
          waiters := RemoveAt(waiters, i);
          answers := answers[id := None];
          return;
        }
        assert waiters[..i + 1] == waiters[..i] + [waiters[i]];
        i := i + 1;
      }
      assert waiters[..i] == waiters;
    }

    method AckTask(id: TaskId)
      modifies this
      ensures Value() == Step(old(Value()), Ack(id))
    {
      acked := if id in inFlight then acked + multiset{id} else acked;
      inFlight := inFlight - {id};
    }

    method NackTask(id: TaskId, now: nat)
      modifies this
      ensures Value() == Step(old(Value()), Nack(id, now))
    {
      hide FirstDue, Backoff, NotifyNext;
      if id !in inFlight { return; }
      var t := inFlight[id];
      inFlight := inFlight - {id};
      var preBumpAttempts := t.attempts;
      t := t.(attempts := preBumpAttempts + 1);
      if IsTerminalAttempt(preBumpAttempts, DEFAULT_MAX_ATTEMPTS) {
        dead := dead + [t];
        return;
      }
      t := t.(dueAt := Some(now + Backoff(RETRY_BACKOFF_MS, t.attempts)));
      pending := pending + [t];
      Notify(now);
    }

    method RetryDeadLetter(id: TaskId, now: nat) returns (ok: bool)
      modifies this
      ensures Value() == Step(old(Value()), DeadLetterRetry(id, now))
      ensures ok <==> exists k :: 0 <= k < |old(dead)| && old(dead)[k].taskId == id
    {
      hide FirstDue, NotifyNext;
      var i := 0;
      while i < |dead| && dead[i].taskId != id
        invariant 0 <= i <= |dead| && Value() == old(Value())
        invariant forall k :: 0 <= k < i ==> dead[k].taskId != id
        invariant FindDead(dead, id) == i + FindDead(dead[i..], id)
      {
        i := i + 1;
      }
      if i == |dead| { return false; }
      var t := dead[i];
      dead := dead[..i] + dead[i + 1..];
      pending := [t.(attempts := 0, dueAt := None)] + pending;
      Notify(now);
      ok := true;
    }
  }
}
