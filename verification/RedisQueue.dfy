/** The Redis Streams queue driver (src/queue/redis.ts) as a machine whose steps are single
    Redis commands: one stream with a consumer group, its pending-entries list, one
    dead-letter stream, and any number of concurrent operations that may stop for good
    between any two commands. */
module RedisQueue {
  import opened Wrappers
  import opened TaskQueue

  type EntryId = nat
  type Actor = nat

  // ---------------------------------------------------------------------------
  // The server
  // ---------------------------------------------------------------------------

  /** `cursor` is the position of the consumer group: entries below it have been handed
      out. None means the group has not been created. Entry ids grow across both streams. */
  datatype Server = Server(
    nextId: EntryId,
    cursor: Option<EntryId>,
    stream: map<EntryId, Task>,
    pel: set<EntryId>,
    dlq: map<EntryId, Task>)

  /** XGROUP CREATE stream group $ MKSTREAM, with BUSYGROUP ignored. */
  function EnsureGroup(r: Server): Server {
    if r.cursor.Some? then r else r.(cursor := Some(r.nextId))
  }

  function XAdd(r: Server, t: Task): Server {
    r.(stream := r.stream[r.nextId := t], nextId := r.nextId + 1)
  }

  function XAddDlq(r: Server, t: Task): Server {
    r.(dlq := r.dlq[r.nextId := t], nextId := r.nextId + 1)
  }

  function XAck(r: Server, id: EntryId): Server { r.(pel := r.pel - {id}) }

  function XDel(r: Server, id: EntryId): Server { r.(stream := r.stream - {id}) }

  function XDelDlq(r: Server, id: EntryId): Server { r.(dlq := r.dlq - {id}) }

  /** `id` is the entry XREADGROUP with id > hands out next. */
  predicate IsNext(r: Server, id: EntryId) {
    && r.cursor.Some? && id in r.stream && r.cursor.value <= id
    && forall other :: other in r.stream && r.cursor.value <= other ==> id <= other
  }

  function XReadGroup(r: Server, id: EntryId): Server {
    r.(cursor := Some(id + 1), pel := r.pel + {id})
  }

  /** XAUTOCLAIM drops pending ids whose entry no longer exists. */
  function ClaimFilter(r: Server, ids: set<EntryId>): Server {
    r.(pel := r.pel - (ids - r.stream.Keys))
  }

  // ---------------------------------------------------------------------------
  // Operations in progress
  // ---------------------------------------------------------------------------

  /** Where an operation stands, with what it has read so far. */
  datatype Pc =
    | Idle
    | Enqueueing(task: Task)                          // before ensureGroup
    | GroupEnsured(task: Task)                        // before XADD
    | Read(id: EntryId, task: Task)                   // XREADGROUP returned this entry
    | Working(id: EntryId, task: Task)                // dequeue returned the task
    | NackRead(id: EntryId, task: Task)               // fallback: XRANGE found the entry
    | NackAdded(id: EntryId)                          // fallback: copy written, XACK next
    | NackAcked(id: EntryId)                          // fallback: XDEL next
    | Claimed(page: seq<(EntryId, Task)>)             // XAUTOCLAIM page being worked off
    | ReclaimAdded(id: EntryId, page: seq<(EntryId, Task)>)
    | ReclaimDeleted(id: EntryId, page: seq<(EntryId, Task)>)
    | RetryFound(id: EntryId, task: Task)             // dead-letter entry matched
    | RetryAdded(id: EntryId)                         // copy written, XDEL of the dead letter next

  /** One enqueue call, named by the entry its XADD wrote. Task ids may repeat. */
  type Job = EntryId

  /** `born` is the job of every copy ever written, `latest` the last copy of each job,
      `names` its task id and `acked` the jobs acknowledged by a worker: history, never read
      by a command. */
  datatype State = State(
    server: Server,
    pcs: map<Actor, Pc>,
    born: map<EntryId, Job>,
    latest: map<Job, EntryId>,
    names: map<Job, TaskId>,
    acked: set<Job>)

  function PcOf(s: State, a: Actor): Pc {
    if a in s.pcs then s.pcs[a] else Idle
  }

  function Init(): State {
    State(Server(0, None, map[], {}, map[]), map[], map[], map[], map[], {})
  }

  /** The driver's settings: attempts before dead-lettering and the base retry delay. */
  datatype Config = Config(maxAttempts: nat, backoffMs: nat)

  /** One atomic step of one operation. */
  datatype Command =
    | StartEnqueue(a: Actor, task: Task)
    | DoEnsureGroup(a: Actor)
    | DequeueEnsureGroup(a: Actor)
    | DoXAdd(a: Actor)
    | DoXReadGroup(a: Actor, id: EntryId)
    | Rotate(a: Actor, now: nat)
    | Deliver(a: Actor, now: nat)
    | Ack(a: Actor)
    | NackLua(a: Actor, now: nat)
    | NackXRange(a: Actor)
    | NackXAdd(a: Actor, now: nat)
    | NackXAck(a: Actor)
    | NackXDel(a: Actor)
    | XAutoClaim(a: Actor, ids: set<EntryId>, page: seq<(EntryId, Task)>)
    | ReclaimXAdd(a: Actor)
    | ReclaimXDel(a: Actor)
    | ReclaimXAck(a: Actor)
    | XRangeDlq(a: Actor, id: EntryId)
    | RetryXAdd(a: Actor)
    | RetryXDel(a: Actor)
    | Stop(a: Actor)                                  // crash, or the operation gives up

  // ---------------------------------------------------------------------------
  // What the operations write
  // ---------------------------------------------------------------------------

  function Bumped(t: Task): Task { t.(attempts := t.attempts + 1) }

  /** The retry copy a nack writes. */
  function NackCopy(c: Config, t: Task, now: nat): Task {
    var b := Bumped(t);
    b.(dueAt := Some(now + Backoff(c.backoffMs, b.attempts)))
  }

  /** The job a copy belongs to; a copy not written yet starts its own. */
  function JobOf(s: State, id: EntryId): Job { if id in s.born then s.born[id] else id }

  /** Write a copy and log it as the latest of its job. */
  function Log(s: State, job: Job, t: Task, server: Server): State {
    s.(server := server,
       born := s.born[s.server.nextId := job],
       latest := s.latest[job := s.server.nextId],
       names := s.names[job := t.taskId])
  }

  function AddCopy(s: State, job: Job, t: Task): State { Log(s, job, t, XAdd(s.server, t)) }

  function AddDead(s: State, job: Job, t: Task): State { Log(s, job, t, XAddDlq(s.server, t)) }

  function Goto(s: State, a: Actor, pc: Pc): State { s.(pcs := s.pcs[a := pc]) }

  function OnServer(s: State, server: Server): State { s.(server := server) }

  /** The script's move: bump first, then compare the bumped count. */
  function LuaMove(c: Config, s: State, job: Job, t: Task, now: nat): State {
    var b := Bumped(t);
    if b.attempts >= c.maxAttempts then AddDead(s, job, b)
    else AddCopy(s, job, b.(dueAt := Some(now + Backoff(c.backoffMs, b.attempts))))
  }

  /** The fallback's move: decide on the count before the bump. */
  function NackMove(c: Config, s: State, job: Job, t: Task, now: nat): State {
    if IsTerminalAttempt(t.attempts, c.maxAttempts) then AddDead(s, job, Bumped(t))
    else AddCopy(s, job, NackCopy(c, t, now))
  }

  /** Reclaim dead-letters the task as it was, or requeues it at once with a bumped count. */
  function ReclaimMove(c: Config, s: State, job: Job, t: Task): State {
    if IsTerminalAttempt(t.attempts, c.maxAttempts) then AddDead(s, job, t) else AddCopy(s, job, Bumped(t))
  }

  predicate PageMatches(r: Server, ids: set<EntryId>, page: seq<(EntryId, Task)>) {
    && ids <= r.pel
    && (forall k :: 0 <= k < |page| ==> page[k].0 in ids && page[k].0 in r.stream && r.stream[page[k].0] == page[k].1)
  }

  predicate Enabled(s: State, cmd: Command) {
    var pc := PcOf(s, cmd.a);
    match cmd
    case StartEnqueue(_, t) => pc.Idle? && t.attempts == 0
    case DoEnsureGroup(_) => pc.Enqueueing?
    case DequeueEnsureGroup(_) => pc.Idle?
    case DoXAdd(_) => pc.GroupEnsured?
    case DoXReadGroup(_, id) => pc.Idle? && IsNext(s.server, id)
    case Rotate(_, now) => pc.Read? && !IsDue(pc.task, now)
    case Deliver(_, now) => pc.Read? && IsDue(pc.task, now)
    case Ack(_) => pc.Working?
    case NackLua(_, _) => pc.Working?
    case NackXRange(_) => pc.Working? && pc.id in s.server.stream
    case NackXAdd(_, _) => pc.NackRead?
    case NackXAck(_) => pc.NackAdded?
    case NackXDel(_) => pc.NackAcked?
    case XAutoClaim(_, ids, page) => pc.Idle? && PageMatches(s.server, ids, page)
    case ReclaimXAdd(_) => pc.Claimed? && pc.page != []
    case ReclaimXDel(_) => pc.ReclaimAdded?
    case ReclaimXAck(_) => pc.ReclaimDeleted?
    case XRangeDlq(_, id) => pc.Idle? && id in s.server.dlq
    case RetryXAdd(_) => pc.RetryFound?
    case RetryXDel(_) => pc.RetryAdded?
    case Stop(_) => true
  }

  function Apply(c: Config, s: State, cmd: Command): State
    requires Enabled(s, cmd)
  {
    var a, pc, r := cmd.a, PcOf(s, cmd.a), s.server;
    match cmd
    case StartEnqueue(_, t) => Goto(s, a, Enqueueing(t))
    case DoEnsureGroup(_) => Goto(OnServer(s, EnsureGroup(r)), a, GroupEnsured(pc.task))
    case DequeueEnsureGroup(_) => Goto(OnServer(s, EnsureGroup(r)), a, Idle)
    case DoXAdd(_) => Goto(AddCopy(s, r.nextId, pc.task), a, Idle)
    case DoXReadGroup(_, id) => Goto(OnServer(s, XReadGroup(r, id)), a, Read(id, r.stream[id]))
    case Rotate(_, _) => // one script: XACK, XDEL, XADD
      Goto(AddCopy(OnServer(s, XDel(XAck(r, pc.id), pc.id)), JobOf(s, pc.id), pc.task), a, Idle)
    case Deliver(_, _) => Goto(s, a, Working(pc.id, pc.task))
    case Ack(_) => Goto(OnServer(s, XAck(r, pc.id)).(acked := s.acked + {JobOf(s, pc.id)}), a, Idle)
    case NackLua(_, now) => // one script; does nothing when the entry is gone
      if pc.id !in r.stream then Goto(s, a, Idle)
      else
        var moved := LuaMove(c, s, JobOf(s, pc.id), r.stream[pc.id], now);
        Goto(OnServer(moved, XDel(XAck(moved.server, pc.id), pc.id)), a, Idle)
    case NackXRange(_) => Goto(s, a, NackRead(pc.id, r.stream[pc.id]))
    case NackXAdd(_, now) => Goto(NackMove(c, s, JobOf(s, pc.id), pc.task, now), a, NackAdded(pc.id))
    case NackXAck(_) => Goto(OnServer(s, XAck(r, pc.id)), a, NackAcked(pc.id))
    case NackXDel(_) => Goto(OnServer(s, XDel(r, pc.id)), a, Idle)
    case XAutoClaim(_, ids, page) => Goto(OnServer(s, ClaimFilter(r, ids)), a, Claimed(page))
    case ReclaimXAdd(_) => Goto(ReclaimMove(c, s, JobOf(s, pc.page[0].0), pc.page[0].1), a, ReclaimAdded(pc.page[0].0, pc.page[1..]))
    case ReclaimXDel(_) => Goto(OnServer(s, XDel(r, pc.id)), a, ReclaimDeleted(pc.id, pc.page))
    case ReclaimXAck(_) => Goto(OnServer(s, XAck(r, pc.id)), a, Claimed(pc.page))
    case XRangeDlq(_, id) => Goto(s, a, RetryFound(id, r.dlq[id]))
    case RetryXAdd(_) => Goto(AddCopy(s, JobOf(s, pc.id), pc.task.(attempts := 0)), a, RetryAdded(pc.id))
    case RetryXDel(_) => Goto(OnServer(s, XDelDlq(r, pc.id)), a, Idle)
    case Stop(_) => Goto(s, a, Idle)
  }

  // ---------------------------------------------------------------------------
  // The invariant
  // ---------------------------------------------------------------------------

  /** A copy a consumer can still get at: ahead of the cursor, pending, or dead-lettered. */
  predicate LiveCopy(r: Server, id: EntryId, t: TaskId) {
    || (id in r.stream && r.stream[id].taskId == t && ((r.cursor.Some? && r.cursor.value <= id) || id in r.pel))
    || (id in r.dlq && r.dlq[id].taskId == t)
  }

  /** A later copy of the same job has been written. */
  predicate Superseded(s: State, id: EntryId) {
    id in s.born && s.born[id] in s.latest && id < s.latest[s.born[id]]
  }

  /** The copy was written for a job of this task. */
  predicate CopyOf(s: State, id: EntryId, t: Task) {
    id in s.born && s.born[id] in s.names && s.names[s.born[id]] == t.taskId
  }

  predicate PcOk(c: Config, s: State, pc: Pc) {
    match pc
    case Idle => true
    case Enqueueing(t) => t.attempts == 0
    case GroupEnsured(t) => t.attempts == 0 && s.server.cursor.Some?
    case Read(id, t) => CopyOf(s, id, t) && t.attempts < c.maxAttempts
    case Working(id, t) => CopyOf(s, id, t) && t.attempts < c.maxAttempts
    case NackRead(id, t) => CopyOf(s, id, t) && t.attempts < c.maxAttempts
    case NackAdded(id) => Superseded(s, id)
    case NackAcked(id) => Superseded(s, id)
    case Claimed(page) => PageOk(c, s, page)
    case ReclaimAdded(id, page) => Superseded(s, id) && PageOk(c, s, page)
    case ReclaimDeleted(id, page) => Superseded(s, id) && PageOk(c, s, page)
    case RetryFound(id, t) => CopyOf(s, id, t)
    case RetryAdded(id) => Superseded(s, id)
  }

  predicate PageOk(c: Config, s: State, page: seq<(EntryId, Task)>) {
    forall k :: 0 <= k < |page| ==> CopyOf(s, page[k].0, page[k].1) && page[k].1.attempts < c.maxAttempts
  }

  /** Every entry is a logged copy. */
  predicate EntriesLogged(s: State) {
    && (forall id :: id in s.server.stream ==> CopyOf(s, id, s.server.stream[id]))
    && (forall id :: id in s.server.dlq ==> CopyOf(s, id, s.server.dlq[id]))
    && (s.server.cursor.Some? ==> s.server.cursor.value <= s.server.nextId)
    && (forall id :: id in s.server.stream ==> id !in s.server.dlq)
  }

  /** Ids stay below the next one, and the last copy of a job is one of its copies. */
  predicate JobsLogged(s: State) {
    && (forall id :: id in s.born ==> id < s.server.nextId && s.born[id] in s.latest && id <= s.latest[s.born[id]])
    && (forall j :: j in s.names ==> j in s.latest)
    && (forall j :: j in s.latest ==> j in s.names && j < s.server.nextId
                                      && s.latest[j] in s.born && s.born[s.latest[j]] == j)
  }

  predicate Logged(s: State) { EntriesLogged(s) && JobsLogged(s) }

  /** The last copy written of every unacknowledged job is live. */
  predicate LatestLive(s: State) {
    forall j :: j in s.latest && j !in s.acked ==> j in s.names && LiveCopy(s.server, s.latest[j], s.names[j])
  }

  predicate AttemptsOk(c: Config, r: Server) {
    && (forall id :: id in r.stream ==> r.stream[id].attempts < c.maxAttempts)
    && (forall id :: id in r.dlq ==> r.dlq[id].attempts <= c.maxAttempts)
  }

  /** Nothing is written before the group exists. */
  predicate GroupFirst(s: State) {
    s.server.cursor.None? ==> s.born == map[]
  }

  predicate Inv(c: Config, s: State) {
    && Logged(s) && LatestLive(s) && AttemptsOk(c, s.server) && GroupFirst(s)
    && forall a :: a in s.pcs ==> PcOk(c, s, s.pcs[a])
  }

  // ---------------------------------------------------------------------------
  // Preservation, one ingredient at a time
  // ---------------------------------------------------------------------------

  /** Nothing in the history is forgotten. */
  predicate HistoryGrows(s: State, s': State) {
    && (forall id :: id in s.born ==> id in s'.born && s'.born[id] == s.born[id])
    && (forall j :: j in s.latest ==> j in s'.latest && s.latest[j] <= s'.latest[j])
    && (forall j :: j in s.names ==> j in s'.names && s'.names[j] == s.names[j])
    && (s.server.cursor.Some? ==> s'.server.cursor.Some?)
  }

  lemma PcStable(c: Config, s: State, s': State, pc: Pc)
    requires HistoryGrows(s, s') && PcOk(c, s, pc)
    ensures PcOk(c, s', pc)
  {
  }

  /** Everything but the control states. */
  predicate Core(c: Config, s: State) {
    Logged(s) && LatestLive(s) && AttemptsOk(c, s.server) && GroupFirst(s)
  }

  /** It is enough to look at the shared state and at the operation that moved. */
  lemma GotoKeeps(c: Config, s: State, mid: State, a: Actor, pc: Pc)
    requires Inv(c, s) && HistoryGrows(s, mid) && Core(c, mid)
    requires mid.pcs == s.pcs && PcOk(c, mid, pc)
    ensures Inv(c, Goto(mid, a, pc)) && HistoryGrows(s, Goto(mid, a, pc))
  {
    hide Core, PcOk, HistoryGrows, Logged, LatestLive, AttemptsOk, GroupFirst;
    var s' := Goto(mid, a, pc);
    forall b | b in s'.pcs ensures PcOk(c, s', s'.pcs[b]) {
      if b != a { PcStable(c, s, mid, s.pcs[b]); }
      PcIgnoresPcs(c, mid, s', s'.pcs[b]);
    }
    CoreIs(c, mid);
    CoreIs(c, s');
    CoreIgnoresPcs(c, mid, s');
    GrowsIgnoresPcs(s, mid, s');
  }

  lemma GrowsIgnoresPcs(s: State, mid: State, s': State)
    requires HistoryGrows(s, mid) && s' == mid.(pcs := s'.pcs)
    ensures HistoryGrows(s, s')
  {
  }

  lemma PcIgnoresPcs(c: Config, s: State, s': State, pc: Pc)
    requires s' == s.(pcs := s'.pcs) && PcOk(c, s, pc)
    ensures PcOk(c, s', pc)
  {
  }

  lemma CoreIgnoresPcs(c: Config, s: State, s': State)
    requires s' == s.(pcs := s'.pcs) && Core(c, s)
    ensures Core(c, s')
  {
    hide LiveCopy;
  }

  lemma CoreIs(c: Config, s: State)
    ensures Core(c, s) <==> Logged(s) && LatestLive(s) && AttemptsOk(c, s.server) && GroupFirst(s)
  {
  }

  /** A copy starts a new job or carries on one of its task. */
  predicate Fits(s: State, job: Job, t: Task) {
    job == s.server.nextId || (job in s.latest && job in s.names && s.names[job] == t.taskId)
  }

  /** Every copy of the job written so far is out of date. */
  predicate Outdates(s: State, job: Job, s': State) {
    forall id :: id in s.born && s.born[id] == job ==> Superseded(s', id)
  }

  lemma CopyStays(s: State, job: Job, t: Task, server: Server, id: EntryId, u: Task)
    requires JobsLogged(s) && Fits(s, job, t) && CopyOf(s, id, u)
    ensures CopyOf(Log(s, job, t, server), id, u)
  {
  }

  lemma LogEntries(s: State, job: Job, t: Task, server: Server)
    requires Logged(s) && Fits(s, job, t) && (server == XAdd(s.server, t) || server == XAddDlq(s.server, t))
    ensures EntriesLogged(Log(s, job, t, server))
  {
    hide Fits;
    var s' := Log(s, job, t, server);
    forall id | id in server.stream ensures CopyOf(s', id, server.stream[id]) && id !in server.dlq {
      if id in s.server.stream { CopyStays(s, job, t, server, id, s.server.stream[id]); }
    }
    forall id | id in server.dlq ensures CopyOf(s', id, server.dlq[id]) {
      if id in s.server.dlq { CopyStays(s, job, t, server, id, s.server.dlq[id]); }
    }
  }

  lemma LogJobs(s: State, job: Job, t: Task, server: Server)
    requires Logged(s) && Fits(s, job, t) && (server == XAdd(s.server, t) || server == XAddDlq(s.server, t))
    ensures JobsLogged(Log(s, job, t, server)) && Outdates(s, job, Log(s, job, t, server))
  {
    hide EntriesLogged, CopyOf;
  }

  lemma LogLogged(s: State, job: Job, t: Task, server: Server)
    requires Logged(s) && Fits(s, job, t) && (server == XAdd(s.server, t) || server == XAddDlq(s.server, t))
    ensures Logged(Log(s, job, t, server)) && Outdates(s, job, Log(s, job, t, server))
  {
    hide EntriesLogged, JobsLogged, Fits, Outdates;
    LogEntries(s, job, t, server);
    LogJobs(s, job, t, server);
  }

  lemma LogGrows(s: State, job: Job, t: Task, server: Server)
    requires Logged(s) && Fits(s, job, t) && (server == XAdd(s.server, t) || server == XAddDlq(s.server, t))
    ensures HistoryGrows(s, Log(s, job, t, server))
  {
  }

  lemma LiveStays(r: Server, r': Server, t: Task, id: EntryId, u: TaskId)
    requires r' == XAdd(r, t) || r' == XAddDlq(r, t)
    requires id < r.nextId && LiveCopy(r, id, u)
    ensures LiveCopy(r', id, u)
  {
  }

  lemma LogLive(s: State, job: Job, t: Task, server: Server)
    requires Logged(s) && LatestLive(s) && s.server.cursor.Some? && Fits(s, job, t)
    requires server == XAdd(s.server, t) || server == XAddDlq(s.server, t)
    ensures LatestLive(Log(s, job, t, server))
  {
    var s' := Log(s, job, t, server);
    forall j | j in s'.latest && j !in s'.acked ensures j in s'.names && LiveCopy(server, s'.latest[j], s'.names[j]) {
      if j != job { LiveStays(s.server, server, t, s.latest[j], s.names[j]); }
    }
  }

  lemma AddCopyCore(c: Config, s: State, job: Job, t: Task)
    requires Core(c, s) && s.server.cursor.Some? && Fits(s, job, t)
    requires t.attempts < c.maxAttempts
    ensures var s' := AddCopy(s, job, t); Core(c, s') && HistoryGrows(s, s') && Outdates(s, job, s')
  {
    hide Superseded, HistoryGrows, LatestLive, Logged, Fits, Outdates;
    LogLogged(s, job, t, XAdd(s.server, t));
    LogGrows(s, job, t, XAdd(s.server, t));
    LogLive(s, job, t, XAdd(s.server, t));
    CoreIs(c, AddCopy(s, job, t));
  }

  lemma AddDeadCore(c: Config, s: State, job: Job, t: Task)
    requires Core(c, s) && s.server.cursor.Some? && Fits(s, job, t)
    requires t.attempts <= c.maxAttempts
    ensures var s' := AddDead(s, job, t); Core(c, s') && HistoryGrows(s, s') && Outdates(s, job, s')
  {
    hide Superseded, HistoryGrows, LatestLive, Logged, Fits, Outdates;
    LogLogged(s, job, t, XAddDlq(s.server, t));
    LogGrows(s, job, t, XAddDlq(s.server, t));
    LogLive(s, job, t, XAddDlq(s.server, t));
    CoreIs(c, AddDead(s, job, t));
  }

  /** A copy of a task carries on its own job. */
  lemma CopyFits(s: State, id: EntryId, t: Task, t': Task)
    requires Logged(s) && CopyOf(s, id, t) && t'.taskId == t.taskId
    ensures Fits(s, JobOf(s, id), t')
  {
  }

  /** Dropping a superseded copy from the stream, the pending list or the dead letters. */
  lemma XDelCore(c: Config, s: State, id: EntryId)
    requires Core(c, s) && Superseded(s, id)
    ensures Core(c, OnServer(s, XDel(s.server, id)))
  {
  }

  lemma XAckCore(c: Config, s: State, id: EntryId)
    requires Core(c, s) && Superseded(s, id)
    ensures Core(c, OnServer(s, XAck(s.server, id)))
  {
  }

  lemma XDelDlqCore(c: Config, s: State, id: EntryId)
    requires Core(c, s) && Superseded(s, id)
    ensures Core(c, OnServer(s, XDelDlq(s.server, id)))
  {
  }

  lemma XReadGroupCore(c: Config, s: State, id: EntryId)
    requires Core(c, s) && IsNext(s.server, id)
    ensures Core(c, OnServer(s, XReadGroup(s.server, id)))
  {
  }

  lemma ClaimCore(c: Config, s: State, ids: set<EntryId>)
    requires Core(c, s)
    ensures Core(c, OnServer(s, ClaimFilter(s.server, ids)))
  {
  }

  lemma EnsureGroupCore(c: Config, s: State)
    requires Core(c, s)
    ensures Core(c, OnServer(s, EnsureGroup(s.server)))
    ensures HistoryGrows(s, OnServer(s, EnsureGroup(s.server)))
  {
  }

  /** Acknowledging removes the worker's copy from the pending list and its task from the
      tasks that are owed a delivery. */
  lemma AckCore(c: Config, s: State, id: EntryId, t: Task)
    requires Core(c, s) && CopyOf(s, id, t)
    ensures Core(c, OnServer(s, XAck(s.server, id)).(acked := s.acked + {JobOf(s, id)}))
  {
  }

  /** Write a copy of `t`, then take `id` off the pending list and the stream. */
  lemma MoveCore(c: Config, s: State, moved: State, id: EntryId)
    requires Core(c, moved) && HistoryGrows(s, moved) && Superseded(moved, id)
    ensures var s' := OnServer(moved, XDel(XAck(moved.server, id), id));
            Core(c, s') && HistoryGrows(s, s')
  {
    hide Core, Superseded;
    XAckCore(c, moved, id);
    var acked := OnServer(moved, XAck(moved.server, id));
    SupersededOn(moved, acked, id);
    XDelCore(c, acked, id);
  }

  lemma SupersededOn(s: State, s': State, id: EntryId)
    requires Superseded(s, id) && s'.born == s.born && s'.latest == s.latest
    ensures Superseded(s', id)
  {
  }

  /** The script and the fallback agree on when a nack is terminal and what they write. */
  lemma LuaMoveIsNackMove(c: Config, s: State, job: Job, t: Task, now: nat)
    ensures LuaMove(c, s, job, t, now) == NackMove(c, s, job, t, now)
  {
  }

  lemma NackMoveCore(c: Config, s: State, job: Job, t: Task, now: nat)
    requires Core(c, s) && s.server.cursor.Some? && t.attempts < c.maxAttempts && Fits(s, job, t)
    ensures var s' := NackMove(c, s, job, t, now);
            Core(c, s') && HistoryGrows(s, s') && s'.pcs == s.pcs && Outdates(s, job, s')
  {
    SameFits(s, job, t, Bumped(t));
    SameFits(s, job, t, NackCopy(c, t, now));
    hide Core, HistoryGrows, Superseded, Log, Fits, Outdates;
    if IsTerminalAttempt(t.attempts, c.maxAttempts) {
      AddDeadCore(c, s, job, Bumped(t));
      LogKeepsPcs(s, job, Bumped(t), XAddDlq(s.server, Bumped(t)));
    } else {
      AddCopyCore(c, s, job, NackCopy(c, t, now));
      LogKeepsPcs(s, job, NackCopy(c, t, now), XAdd(s.server, NackCopy(c, t, now)));
    }
  }

  lemma ReclaimMoveCore(c: Config, s: State, job: Job, t: Task)
    requires Core(c, s) && s.server.cursor.Some? && t.attempts < c.maxAttempts && Fits(s, job, t)
    ensures var s' := ReclaimMove(c, s, job, t);
            Core(c, s') && HistoryGrows(s, s') && s'.pcs == s.pcs && Outdates(s, job, s')
  {
    SameFits(s, job, t, Bumped(t));
    hide Core, HistoryGrows, Superseded, Log, Fits, Outdates;
    if IsTerminalAttempt(t.attempts, c.maxAttempts) {
      AddDeadCore(c, s, job, t);
      LogKeepsPcs(s, job, t, XAddDlq(s.server, t));
    } else {
      AddCopyCore(c, s, job, Bumped(t));
      LogKeepsPcs(s, job, Bumped(t), XAdd(s.server, Bumped(t)));
    }
  }

  lemma SameFits(s: State, job: Job, t: Task, t': Task)
    requires Fits(s, job, t) && t'.taskId == t.taskId
    ensures Fits(s, job, t')
  {
  }

  lemma LogKeepsPcs(s: State, job: Job, t: Task, server: Server)
    ensures Log(s, job, t, server).pcs == s.pcs
  {
  }

  /** Something has been written, so the group exists. */
  lemma CursorSet(c: Config, s: State, id: EntryId)
    requires Core(c, s) && id in s.born
    ensures s.server.cursor.Some?
  {
  }

  lemma HistoryStays(s: State, s': State)
    requires s'.born == s.born && s'.latest == s.latest && s'.names == s.names
    requires s.server.cursor.Some? ==> s'.server.cursor.Some?
    ensures HistoryGrows(s, s')
  {
  }

  // ---------------------------------------------------------------------------
  // Every command keeps the invariant
  // ---------------------------------------------------------------------------

  lemma EnqueueKeeps(c: Config, s: State, cmd: Command)
    requires Inv(c, s) && Enabled(s, cmd) && c.maxAttempts > 0
    requires cmd.StartEnqueue? || cmd.DoEnsureGroup? || cmd.DequeueEnsureGroup? || cmd.DoXAdd? || cmd.Stop?
    ensures Inv(c, Apply(c, s, cmd)) && HistoryGrows(s, Apply(c, s, cmd))
  {
    hide Logged, LatestLive, AttemptsOk, GroupFirst, HistoryGrows, Log;
    var pc := PcOf(s, cmd.a);
    match cmd
    case DoEnsureGroup(a) => EnsureGroupCore(c, s); GotoKeeps(c, s, OnServer(s, EnsureGroup(s.server)), a, GroupEnsured(pc.task));
    case DequeueEnsureGroup(a) => EnsureGroupCore(c, s); GotoKeeps(c, s, OnServer(s, EnsureGroup(s.server)), a, Idle);
    case DoXAdd(a) =>
      AddCopyCore(c, s, s.server.nextId, pc.task);
      LogKeepsPcs(s, s.server.nextId, pc.task, XAdd(s.server, pc.task));
      GotoKeeps(c, s, AddCopy(s, s.server.nextId, pc.task), a, Idle);
    case StartEnqueue(a, t) => HistoryStays(s, s); GotoKeeps(c, s, s, a, Enqueueing(t));
    case Stop(a) => HistoryStays(s, s); GotoKeeps(c, s, s, a, Idle);
    case _ =>
  }

  lemma DequeueKeeps(c: Config, s: State, cmd: Command)
    requires Inv(c, s) && Enabled(s, cmd)
    requires cmd.DoXReadGroup? || cmd.Rotate? || cmd.Deliver? || cmd.Ack?
    ensures Inv(c, Apply(c, s, cmd)) && HistoryGrows(s, Apply(c, s, cmd))
  {
    hide LatestLive, GroupFirst, HistoryGrows, Log, Superseded;
    var pc := PcOf(s, cmd.a);
    match cmd
    case DoXReadGroup(a, id) =>
      XReadGroupCore(c, s, id);
      var mid := OnServer(s, XReadGroup(s.server, id));
      HistoryStays(s, mid);
      GotoKeeps(c, s, mid, a, Read(id, s.server.stream[id]));
    case Rotate(a, now) =>
      CursorSet(c, s, pc.id);
      var job := JobOf(s, pc.id);
      CopyFits(s, pc.id, pc.task, pc.task);
      AddCopyCore(c, s, job, pc.task);
      MoveCore(c, s, AddCopy(s, job, pc.task), pc.id);
      RotateIsMove(s, pc.id, job, pc.task);
      LogKeepsPcs(s, job, pc.task, XAdd(s.server, pc.task));
      GotoKeeps(c, s, AddCopy(OnServer(s, XDel(XAck(s.server, pc.id), pc.id)), job, pc.task), a, Idle);
    case Deliver(a, now) => HistoryStays(s, s); GotoKeeps(c, s, s, a, Working(pc.id, pc.task));
    case Ack(a) =>
      AckCore(c, s, pc.id, pc.task);
      var mid := OnServer(s, XAck(s.server, pc.id)).(acked := s.acked + {JobOf(s, pc.id)});
      HistoryStays(s, mid);
      GotoKeeps(c, s, mid, a, Idle);
    case _ =>
  }

  /** Deleting before or after writing the copy is the same: the new id is fresh. */
  lemma RotateIsMove(s: State, id: EntryId, job: Job, t: Task)
    requires Logged(s) && id in s.born
    ensures AddCopy(OnServer(s, XDel(XAck(s.server, id), id)), job, t)
         == OnServer(AddCopy(s, job, t), XDel(XAck(AddCopy(s, job, t).server, id), id))
  {
    assert id < s.server.nextId;
    assert (s.server.stream - {id})[s.server.nextId := t] == s.server.stream[s.server.nextId := t] - {id};
  }

  lemma AckStep(c: Config, s: State, a: Actor, id: EntryId, pc: Pc)
    requires Inv(c, s) && Superseded(s, id) && PcOk(c, s, pc)
    ensures Inv(c, Goto(OnServer(s, XAck(s.server, id)), a, pc))
    ensures HistoryGrows(s, Goto(OnServer(s, XAck(s.server, id)), a, pc))
  {
    hide Logged, LatestLive, AttemptsOk, GroupFirst, HistoryGrows, Superseded, PcOk;
    var mid := OnServer(s, XAck(s.server, id));
    XAckCore(c, s, id);
    HistoryStays(s, mid);
    PcStable(c, s, mid, pc);
    GotoKeeps(c, s, mid, a, pc);
  }

  lemma DelStep(c: Config, s: State, a: Actor, id: EntryId, pc: Pc)
    requires Inv(c, s) && Superseded(s, id) && PcOk(c, s, pc)
    ensures Inv(c, Goto(OnServer(s, XDel(s.server, id)), a, pc))
    ensures HistoryGrows(s, Goto(OnServer(s, XDel(s.server, id)), a, pc))
  {
    hide Logged, LatestLive, AttemptsOk, GroupFirst, HistoryGrows, Superseded, PcOk;
    var mid := OnServer(s, XDel(s.server, id));
    XDelCore(c, s, id);
    HistoryStays(s, mid);
    PcStable(c, s, mid, pc);
    GotoKeeps(c, s, mid, a, pc);
  }

  lemma NackKeeps(c: Config, s: State, cmd: Command)
    requires Inv(c, s) && Enabled(s, cmd)
    requires cmd.NackLua? || cmd.NackXRange? || cmd.NackXAdd? || cmd.NackXAck? || cmd.NackXDel?
    ensures Inv(c, Apply(c, s, cmd)) && HistoryGrows(s, Apply(c, s, cmd))
  {
    hide LatestLive, GroupFirst, HistoryGrows, Log, Superseded, LuaMove, NackMove;
    var pc := PcOf(s, cmd.a);
    match cmd
    case NackLua(a, now) =>
      if pc.id in s.server.stream {
        var t := s.server.stream[pc.id];
        CursorSet(c, s, pc.id);
        var job := JobOf(s, pc.id);
        assert CopyOf(s, pc.id, t);
        CopyFits(s, pc.id, t, t);
        NackMoveCore(c, s, job, t, now);
        LuaMoveIsNackMove(c, s, job, t, now);
        var moved := LuaMove(c, s, job, t, now);
        MoveCore(c, s, moved, pc.id);
        GotoKeeps(c, s, OnServer(moved, XDel(XAck(moved.server, pc.id), pc.id)), a, Idle);
      } else {
        HistoryStays(s, s);
        GotoKeeps(c, s, s, a, Idle);
      }
    case NackXRange(a) =>
      HistoryStays(s, s);
      GotoKeeps(c, s, s, a, NackRead(pc.id, s.server.stream[pc.id]));
    case NackXAdd(a, now) =>
      CursorSet(c, s, pc.id);
      var job := JobOf(s, pc.id);
      CopyFits(s, pc.id, pc.task, pc.task);
      NackMoveCore(c, s, job, pc.task, now);
      GotoKeeps(c, s, NackMove(c, s, job, pc.task, now), a, NackAdded(pc.id));
    case NackXAck(a) => AckStep(c, s, a, pc.id, NackAcked(pc.id));
    case NackXDel(a) => DelStep(c, s, a, pc.id, Idle);
    case _ =>
  }

  lemma ReclaimKeeps(c: Config, s: State, cmd: Command)
    requires Inv(c, s) && Enabled(s, cmd)
    requires cmd.XAutoClaim? || cmd.ReclaimXAdd? || cmd.ReclaimXDel? || cmd.ReclaimXAck?
    ensures Inv(c, Apply(c, s, cmd)) && HistoryGrows(s, Apply(c, s, cmd))
  {
    hide LatestLive, GroupFirst, HistoryGrows, Log, Superseded, ReclaimMove;
    var pc := PcOf(s, cmd.a);
    match cmd
    case XAutoClaim(a, ids, page) =>
      ClaimCore(c, s, ids);
      var mid := OnServer(s, ClaimFilter(s.server, ids));
      HistoryStays(s, mid);
      forall k | 0 <= k < |page|
        ensures CopyOf(s, page[k].0, page[k].1) && page[k].1.attempts < c.maxAttempts
      {
        assert s.server.stream[page[k].0] == page[k].1;
      }
      GotoKeeps(c, s, mid, a, Claimed(page));
    case ReclaimXAdd(a) =>
      var (id, t) := pc.page[0];
      assert CopyOf(s, id, t);
      CursorSet(c, s, id);
      var job := JobOf(s, id);
      CopyFits(s, id, t, t);
      ReclaimMoveCore(c, s, job, t);
      PageTail(c, s, pc.page);
      PcStable(c, s, ReclaimMove(c, s, job, t), Claimed(pc.page[1..]));
      GotoKeeps(c, s, ReclaimMove(c, s, job, t), a, ReclaimAdded(id, pc.page[1..]));
    case ReclaimXDel(a) => DelStep(c, s, a, pc.id, ReclaimDeleted(pc.id, pc.page));
    case ReclaimXAck(a) => AckStep(c, s, a, pc.id, Claimed(pc.page));
    case _ =>
  }

  lemma PageTail(c: Config, s: State, page: seq<(EntryId, Task)>)
    requires PageOk(c, s, page) && page != []
    ensures PageOk(c, s, page[1..])
  {
  }

  lemma RetryKeeps(c: Config, s: State, cmd: Command)
    requires Inv(c, s) && Enabled(s, cmd) && c.maxAttempts > 0
    requires cmd.XRangeDlq? || cmd.RetryXAdd? || cmd.RetryXDel?
    ensures Inv(c, Apply(c, s, cmd)) && HistoryGrows(s, Apply(c, s, cmd))
  {
    hide LatestLive, GroupFirst, HistoryGrows, Log, Superseded;
    var pc := PcOf(s, cmd.a);
    match cmd
    case XRangeDlq(a, id) => HistoryStays(s, s); GotoKeeps(c, s, s, a, RetryFound(id, s.server.dlq[id]));
    case RetryXAdd(a) =>
      CursorSet(c, s, pc.id);
      var job, t := JobOf(s, pc.id), pc.task.(attempts := 0);
      CopyFits(s, pc.id, pc.task, t);
      AddCopyCore(c, s, job, t);
      LogKeepsPcs(s, job, t, XAdd(s.server, t));
      GotoKeeps(c, s, AddCopy(s, job, t), a, RetryAdded(pc.id));
    case RetryXDel(a) =>
      XDelDlqCore(c, s, pc.id);
      HistoryStays(s, OnServer(s, XDelDlq(s.server, pc.id)));
      GotoKeeps(c, s, OnServer(s, XDelDlq(s.server, pc.id)), a, Idle);
    case _ =>
  }

  lemma CommandKeepsInv(c: Config, s: State, cmd: Command)
    requires Inv(c, s) && Enabled(s, cmd) && c.maxAttempts > 0
    ensures Inv(c, Apply(c, s, cmd)) && HistoryGrows(s, Apply(c, s, cmd))
  {
    hide Inv, Enabled, Apply, HistoryGrows;
    match cmd
    case StartEnqueue(_, _) => EnqueueKeeps(c, s, cmd);
    case DoEnsureGroup(_) => EnqueueKeeps(c, s, cmd);
    case DequeueEnsureGroup(_) => EnqueueKeeps(c, s, cmd);
    case DoXAdd(_) => EnqueueKeeps(c, s, cmd);
    case Stop(_) => EnqueueKeeps(c, s, cmd);
    case DoXReadGroup(_, _) => DequeueKeeps(c, s, cmd);
    case Rotate(_, _) => DequeueKeeps(c, s, cmd);
    case Deliver(_, _) => DequeueKeeps(c, s, cmd);
    case Ack(_) => DequeueKeeps(c, s, cmd);
    case NackLua(_, _) => NackKeeps(c, s, cmd);
    case NackXRange(_) => NackKeeps(c, s, cmd);
    case NackXAdd(_, _) => NackKeeps(c, s, cmd);
    case NackXAck(_) => NackKeeps(c, s, cmd);
    case NackXDel(_) => NackKeeps(c, s, cmd);
    case XAutoClaim(_, _, _) => ReclaimKeeps(c, s, cmd);
    case ReclaimXAdd(_) => ReclaimKeeps(c, s, cmd);
    case ReclaimXDel(_) => ReclaimKeeps(c, s, cmd);
    case ReclaimXAck(_) => ReclaimKeeps(c, s, cmd);
    case XRangeDlq(_, _) => RetryKeeps(c, s, cmd);
    case RetryXAdd(_) => RetryKeeps(c, s, cmd);
    case RetryXDel(_) => RetryKeeps(c, s, cmd);
  }

  // ---------------------------------------------------------------------------
  // Whole runs
  // ---------------------------------------------------------------------------

  /** The state after a sequence of commands, or None when one of them was not possible. */
  function Run(c: Config, cmds: seq<Command>): Option<State> {
    if cmds == [] then Some(Init())
    else
      var n := |cmds| - 1;
      var s := Run(c, cmds[..n]);
      if s.Some? && Enabled(s.value, cmds[n]) then Some(Apply(c, s.value, cmds[n])) else None
  }

  lemma {:induction false} RunInv(c: Config, cmds: seq<Command>)
    requires c.maxAttempts > 0 && Run(c, cmds).Some?
    ensures Inv(c, Run(c, cmds).value)
  {
    hide Inv, Apply, Enabled;
    if cmds == [] {
      InitInv(c);
    } else {
      var n := |cmds| - 1;
      RunInv(c, cmds[..n]);
      CommandKeepsInv(c, Run(c, cmds[..n]).value, cmds[n]);
    }
  }

  lemma InitInv(c: Config)
    ensures Inv(c, Init())
  {
  }

  /** No task is lost: after any interleaving of the operations' single commands, with
      operations stopping anywhere, every enqueued task whose XADD completed and that was not
      acknowledged has a copy that is ahead of the cursor, pending, or dead-lettered. */
  lemma {:induction false} NoTaskLost(c: Config, cmds: seq<Command>, job: Job)
    requires c.maxAttempts > 0 && Run(c, cmds).Some?
    requires var s := Run(c, cmds).value; job in s.latest && job !in s.acked
    ensures var s := Run(c, cmds).value;
            job in s.names
            && exists id :: id in s.born && s.born[id] == job && LiveCopy(s.server, id, s.names[job])
  {
    hide Run, LiveCopy;
    RunInv(c, cmds);
    var s := Run(c, cmds).value;
    assert LiveCopy(s.server, s.latest[job], s.names[job]);
  }

  /** An enqueued task is on record from its XADD on, for good and under its own task id. */
  lemma {:induction false} EnqueuedStaysOnRecord(c: Config, s: State, cmd: Command)
    requires Inv(c, s) && Enabled(s, cmd) && c.maxAttempts > 0
    ensures var s' := Apply(c, s, cmd);
            && (forall j :: j in s.latest ==> j in s'.latest)
            && (forall j :: j in s.names ==> j in s'.names && s'.names[j] == s.names[j])
    ensures cmd.DoXAdd? ==>
              var s', job := Apply(c, s, cmd), s.server.nextId;
              job in s'.latest && job in s'.names && s'.names[job] == PcOf(s, cmd.a).task.taskId
  {
    hide Inv;
    CommandKeepsInv(c, s, cmd);
    if !cmd.DoXAdd? { hide Apply; }
  }

  /** A task becomes acknowledged only by a worker that holds a copy of it, and for good. */
  lemma {:induction false} AckedByHolder(c: Config, s: State, cmd: Command)
    requires Inv(c, s) && Enabled(s, cmd)
    ensures var s' := Apply(c, s, cmd);
            s'.acked == if cmd.Ack? then s.acked + {JobOf(s, PcOf(s, cmd.a).id)} else s.acked
    ensures cmd.Ack? ==> JobOf(s, PcOf(s, cmd.a).id) in s.names
  {
    hide Logged, LatestLive, AttemptsOk, GroupFirst, XAdd, XAddDlq, XAck, XDel, XDelDlq, ClaimFilter, Backoff;
    if cmd.Ack? { assert PcOk(c, s, s.pcs[cmd.a]); }
  }

  /** A stream entry that no consumer can reach any more (behind the cursor and not pending)
      belongs to an acknowledged task or has a later copy: nothing is stranded. */
  lemma {:induction false} NothingStranded(c: Config, cmds: seq<Command>, id: EntryId)
    requires c.maxAttempts > 0 && Run(c, cmds).Some?
    requires var r := Run(c, cmds).value.server;
             id in r.stream && r.cursor.Some? && id < r.cursor.value && id !in r.pel
    ensures var s := Run(c, cmds).value;
            id in s.born && (s.born[id] in s.acked || Superseded(s, id))
  {
    hide Run;
    RunInv(c, cmds);
    var s := Run(c, cmds).value;
    assert CopyOf(s, id, s.server.stream[id]);
    var job := s.born[id];
    assert job !in s.acked ==> LiveCopy(s.server, s.latest[job], s.names[job]);
  }

  /** Attempt counts stay below the limit everywhere but in the dead letters. */
  lemma {:induction false} AttemptsBounded(c: Config, cmds: seq<Command>)
    requires c.maxAttempts > 0 && Run(c, cmds).Some?
    ensures AttemptsOk(c, Run(c, cmds).value.server)
    ensures forall a :: var pc := PcOf(Run(c, cmds).value, a); pc.Working? ==> pc.task.attempts < c.maxAttempts
  {
    hide Run, AttemptsOk;
    RunInv(c, cmds);
    var s := Run(c, cmds).value;
    forall a | PcOf(s, a).Working? ensures PcOf(s, a).task.attempts < c.maxAttempts {
      assert PcOk(c, s, s.pcs[a]);
    }
  }

  /** Every path dead-letters exactly when the attempt is terminal. */
  lemma DeadLettersExactlyWhenTerminal(c: Config, s: State, job: Job, t: Task, now: nat)
    requires Logged(s)
    ensures LuaMove(c, s, job, t, now).server.dlq != s.server.dlq <==> IsTerminalAttempt(t.attempts, c.maxAttempts)
    ensures NackMove(c, s, job, t, now).server.dlq != s.server.dlq <==> IsTerminalAttempt(t.attempts, c.maxAttempts)
    ensures ReclaimMove(c, s, job, t).server.dlq != s.server.dlq <==> IsTerminalAttempt(t.attempts, c.maxAttempts)
  {
    hide Backoff;
    assert s.server.nextId !in s.server.dlq;
  }

  /** The copy written by a move, wherever it went. */
  function Written(s: State, moved: State): Task
    requires s.server.nextId in moved.server.stream || s.server.nextId in moved.server.dlq
  {
    var id := s.server.nextId;
    if id in moved.server.stream then moved.server.stream[id] else moved.server.dlq[id]
  }

  /** A move keeps the task and charges it one failure; only reclaim dead-letters without
      charging, and only a nack puts off the next delivery. */
  lemma MovesChargeOneFailure(c: Config, s: State, job: Job, t: Task, now: nat)
    requires Logged(s)
    ensures var m := NackMove(c, s, job, t, now);
            (s.server.nextId in m.server.stream <==> s.server.nextId !in m.server.dlq)
            && var w := Written(s, m);
            w.attempts == t.attempts + 1 && w == t.(attempts := w.attempts, dueAt := w.dueAt)
            && (s.server.nextId in m.server.stream ==> !IsDue(w, now) || c.backoffMs == 0)
            && (s.server.nextId in m.server.dlq ==> w.dueAt == t.dueAt)
    ensures var m := ReclaimMove(c, s, job, t);
            (s.server.nextId in m.server.stream <==> s.server.nextId !in m.server.dlq)
            && var w := Written(s, m);
            w == t.(attempts := w.attempts)
            && w.attempts == t.attempts + if s.server.nextId in m.server.stream then 1 else 0
  {
    assert s.server.nextId !in s.server.dlq && s.server.nextId !in s.server.stream;
    Pow2Positive(t.attempts);
  }

  /** Undisturbed, the four commands of the fallback have the effect of the one script. */
  lemma {:induction false} FallbackIsScript(c: Config, s: State, a: Actor, now: nat)
    requires Logged(s) && PcOf(s, a).Working? && PcOf(s, a).id in s.server.stream
    ensures var s1 := Apply(c, s, NackXRange(a));
            Enabled(s1, NackXAdd(a, now)) &&
            var s2 := Apply(c, s1, NackXAdd(a, now));
            Enabled(s2, NackXAck(a)) &&
            var s3 := Apply(c, s2, NackXAck(a));
            Enabled(s3, NackXDel(a)) &&
            Apply(c, s3, NackXDel(a)) == Apply(c, s, NackLua(a, now))
  {
    hide LuaMove, NackMove, Log, Backoff, IsTerminalAttempt, XAck, XDel;
    var pc := PcOf(s, a);
    var t := s.server.stream[pc.id];
    var job := JobOf(s, pc.id);
    LuaMoveIsNackMove(c, s, job, t, now);
    CopyWritten(c, s, a, now);
    AckThenDelete(c, NackMove(c, s, job, t, now), a, pc.id);
    MovePcs(c, s, job, t, now);
  }

  lemma CopyWritten(c: Config, s: State, a: Actor, now: nat)
    requires PcOf(s, a).Working? && PcOf(s, a).id in s.server.stream
    ensures var s1 := Apply(c, s, NackXRange(a));
            Enabled(s1, NackXAdd(a, now))
            && Apply(c, s1, NackXAdd(a, now))
               == Goto(NackMove(c, s, JobOf(s, PcOf(s, a).id), s.server.stream[PcOf(s, a).id], now), a, NackAdded(PcOf(s, a).id))
  {
    hide NackMove;
    var id := PcOf(s, a).id;
    var t, job := s.server.stream[id], JobOf(s, id);
    MovePcs(c, s, job, t, now);
    MoveIgnoresPcs(c, s, a, NackRead(id, t), job, t, now);
    GotoTwice(NackMove(c, s, job, t, now), a, NackRead(id, t), NackAdded(id));
  }

  lemma GotoTwice(s: State, a: Actor, pc: Pc, pc': Pc)
    ensures Goto(Goto(s, a, pc), a, pc') == Goto(s, a, pc')
  {
    assert s.pcs[a := pc][a := pc'] == s.pcs[a := pc'];
  }

  lemma AckThenDelete(c: Config, m: State, a: Actor, id: EntryId)
    ensures var s2 := Goto(m, a, NackAdded(id));
            Enabled(s2, NackXAck(a)) &&
            var s3 := Apply(c, s2, NackXAck(a));
            Enabled(s3, NackXDel(a)) &&
            Apply(c, s3, NackXDel(a)) == Goto(OnServer(m, XDel(XAck(m.server, id), id)), a, Idle)
  {
    hide XAck, XDel;
    var s3 := Apply(c, Goto(m, a, NackAdded(id)), NackXAck(a));
    assert s3.pcs[a := Idle] == m.pcs[a := Idle];
  }

  lemma MovePcs(c: Config, s: State, job: Job, t: Task, now: nat)
    ensures NackMove(c, s, job, t, now).pcs == s.pcs
  {
    hide Backoff;
  }

  lemma MoveIgnoresPcs(c: Config, s: State, a: Actor, pc: Pc, job: Job, t: Task, now: nat)
    ensures NackMove(c, Goto(s, a, pc), job, t, now) == Goto(NackMove(c, s, job, t, now), a, pc)
  {
  }

  // ---------------------------------------------------------------------------
  // The driver's methods, with other operations running between their commands
  // ---------------------------------------------------------------------------

  /** What Await relies on: any command of another operation keeps the invariant, leaves this
      operation where it is and takes nothing off the record. */
  lemma OthersMayStep(c: Config, s: State, cmd: Command, me: Actor)
    requires Inv(c, s) && Enabled(s, cmd) && c.maxAttempts > 0 && cmd.a != me
    ensures var s' := Apply(c, s, cmd); Inv(c, s') && PcOf(s', me) == PcOf(s, me) && HistoryGrows(s, s')
  {
    hide Inv, HistoryGrows, Apply;
    CommandKeepsInv(c, s, cmd);
    OthersStay(c, s, cmd, me);
  }

  lemma OthersStay(c: Config, s: State, cmd: Command, me: Actor)
    requires Enabled(s, cmd) && cmd.a != me
    ensures PcOf(Apply(c, s, cmd), me) == PcOf(s, me)
  {
    hide XAck, XDel, XDelDlq, XReadGroup, EnsureGroup, ClaimFilter, Backoff, IsTerminalAttempt, Logged;
  }

  const MAX_RETRY_ROTATIONS: nat := 8

  class RedisStreamQueue {
    const config: Config
    const me: Actor
    var sys: State           // the server and every operation in progress
    var inFlight: set<EntryId>

    ghost predicate Valid()
      reads this
    {
      config.maxAttempts > 0 && Inv(config, sys)
    }

    constructor (config: Config, me: Actor)
      requires config.maxAttempts > 0
      ensures Valid() && sys == Init() && inFlight == {}
      ensures this.config == config && this.me == me
    {
      InitInv(config);
      this.config, this.me := config, me;
      sys, inFlight := Init(), {};
    }

    /** Whatever other operations do while this one awaits a reply: any run of commands,
        all of which keep the invariant and leave this operation where it is. */
    method Await()
      requires Valid()
      modifies this`sys
      ensures Valid() && PcOf(sys, me) == old(PcOf(sys, me)) && HistoryGrows(old(sys), sys)
    {
    }

    /** Send one command. */
    method Send(cmd: Command)
      requires Valid() && cmd.a == me && Enabled(sys, cmd)
      modifies this`sys
      ensures Valid() && sys == Apply(config, old(sys), cmd) && HistoryGrows(old(sys), sys)
    {
      CommandKeepsInv(config, sys, cmd);
      sys := Apply(config, sys, cmd);
    }

    /** dequeue: read entries until one is due; an entry whose time has not come goes back
        to the tail, at most nine times. `now` lists the clock readings, one per entry, and
        `at` is the server as the last entry was read: the task returned is the one stored in
        it. */
    method Dequeue(now: seq<nat>) returns (task: Option<Task>, rotations: nat, ghost at: Server)
      requires Valid() && PcOf(sys, me).Idle? && |now| == 9
      modifies this
      ensures Valid() && rotations <= 9
      ensures task.Some? ==>
                && rotations < 9 && IsDue(task.value, now[rotations])
                && (exists id :: IsNext(at, id) && at.stream[id] == task.value
                                 && PcOf(sys, me) == Working(id, task.value) && inFlight == old(inFlight) + {id})
      ensures task.None? ==> PcOf(sys, me).Idle? && inFlight == old(inFlight)
    {
      hide Inv, HistoryGrows;
      Send(DequeueEnsureGroup(me));
      rotations := 0;
      at := sys.server;
      while true
        invariant Valid() && PcOf(sys, me).Idle? && inFlight == old(inFlight)
        invariant rotations <= MAX_RETRY_ROTATIONS
        decreases 9 - rotations
      {
        Await();
        var id, found := NextEntry();
        at := sys.server;
        if !found { return None, rotations, at; }
        Send(DoXReadGroup(me, id));
        Await();
        var t := PcOf(sys, me).task;
        if !IsDue(t, now[rotations]) {
          Send(Rotate(me, now[rotations]));
          if rotations >= MAX_RETRY_ROTATIONS { return None, rotations + 1, at; }
          rotations := rotations + 1;
          continue;
        }
        Send(Deliver(me, now[rotations]));
        inFlight := inFlight + {id};
        return Some(t), rotations, at;
      }
    }

    /** The server's choice of the next entry for a group read: the lowest one not yet
        handed out. */
    method NextEntry() returns (id: EntryId, found: bool)
      ensures found ==> IsNext(sys.server, id)
      ensures !found ==> forall other :: !IsNext(sys.server, other)
    {
      id, found := 0, false;
      if sys.server.cursor.None? { return; }
      var cursor := sys.server.cursor.value;
      var ids := set other | other in sys.server.stream.Keys && cursor <= other;
      assert forall other :: other in ids <==> other in sys.server.stream && cursor <= other;
      if ids == {} { return; }
      id :| id in ids;
      var rest := ids - {id};
      while rest != {}
        invariant id in ids && rest <= ids
        invariant forall other :: other in ids && other !in rest ==> id <= other
      {
        var other :| other in rest;
        if other < id { id := other; }
        rest := rest - {other};
      }
      found := true;
    }

    method AckTask(id: EntryId)
      requires Valid() && PcOf(sys, me).Working? && PcOf(sys, me).id == id
      modifies this
      ensures Valid() && PcOf(sys, me).Idle? && inFlight == old(inFlight) - {id}
      ensures JobOf(old(sys), id) in sys.acked && id !in sys.server.pel
    {
      hide Inv, HistoryGrows;
      inFlight := inFlight - {id};
      Send(Ack(me));
    }

    /** nack: the script, or when it fails the commands of the fallback. Unless the entry
        had already been handled by someone else, its copy is replaced. */
    method Nack(id: EntryId, scriptWorks: bool, now: nat)
      requires Valid() && PcOf(sys, me).Working? && PcOf(sys, me).id == id
      modifies this
      ensures Valid() && PcOf(sys, me).Idle? && inFlight == old(inFlight) - {id}
      ensures Superseded(sys, id) || id !in sys.server.stream
    {
      hide Inv, Superseded, HistoryGrows, Apply;
      inFlight := inFlight - {id};
      if scriptWorks { NackScript(id, now); } else { NackFallback(id, now); }
    }

    method NackScript(id: EntryId, now: nat)
      requires Valid() && PcOf(sys, me).Working? && PcOf(sys, me).id == id
      modifies this`sys
      ensures Valid() && PcOf(sys, me).Idle?
      ensures Superseded(sys, id) || id !in sys.server.stream
    {
      hide Inv, Superseded, HistoryGrows, LuaMove;
      ghost var before := sys;
      Send(NackLua(me, now));
      if id in before.server.stream { NackLuaSupersedes(config, before, me, now); }
    }

    method NackFallback(id: EntryId, now: nat)
      requires Valid() && PcOf(sys, me).Working? && PcOf(sys, me).id == id
      modifies this`sys
      ensures Valid() && PcOf(sys, me).Idle?
      ensures Superseded(sys, id) || id !in sys.server.stream
    {
      hide Inv, Superseded, HistoryGrows, NackMove, XAck, XDel;
      Await();
      if id !in sys.server.stream {
        Send(Stop(me));
        return;
      }
      Send(NackXRange(me));
      Await();
      Send(NackXAdd(me, now));
      Await();
      Send(NackXAck(me));
      Await();
      PcSuperseded(config, sys, me);
      ghost var last := sys;
      Send(NackXDel(me));
      SupersededStays(last, sys, id);
    }

    /** The body of reclaimOrphaned for one page: every claimed message is copied (to the
        stream or the dead letters) before its old entry is deleted and acknowledged. */
    method ReclaimPage(ids: set<EntryId>, page: seq<(EntryId, Task)>)
      requires Valid() && PcOf(sys, me).Idle? && PageMatches(sys.server, ids, page)
      modifies this`sys
      ensures Valid() && PcOf(sys, me) == Claimed([])
      ensures forall k :: 0 <= k < |page| ==> Superseded(sys, page[k].0)
    {
      hide Inv, HistoryGrows, Superseded, ClaimFilter;
      Send(XAutoClaim(me, ids, page));
      for n := 0 to |page|
        invariant Valid() && PcOf(sys, me) == Claimed(page[n..])
        invariant forall k :: 0 <= k < n ==> Superseded(sys, page[k].0)
      {
        ghost var start := sys;
        assert page[n..][1..] == page[n + 1..];
        ReclaimMessage(page[n..]);
        SupersededStay(start, sys, page, n);
      }
    }

    method ReclaimMessage(page: seq<(EntryId, Task)>)
      requires Valid() && page != [] && PcOf(sys, me) == Claimed(page)
      modifies this`sys
      ensures Valid() && PcOf(sys, me) == Claimed(page[1..])
      ensures HistoryGrows(old(sys), sys) && Superseded(sys, page[0].0)
    {
      hide Inv, HistoryGrows, Superseded, ReclaimMove, XAck, XDel;
      ghost var s0 := sys;
      Await();
      ghost var s1 := sys;
      Send(ReclaimXAdd(me));
      ghost var s2 := sys;
      Await();
      ghost var s3 := sys;
      Send(ReclaimXDel(me));
      ghost var s4 := sys;
      Await();
      PcSuperseded(config, sys, me);
      ghost var s5 := sys;
      Send(ReclaimXAck(me));
      SupersededStays(s5, sys, page[0].0);
      HistoryGrowsOn([s0, s1, s2, s3, s4, s5, sys]);
    }
  }

  lemma {:induction false} HistoryGrowsOn(run: seq<State>)
    requires run != [] && forall k :: 0 <= k < |run| - 1 ==> HistoryGrows(run[k], run[k + 1])
    ensures HistoryGrows(run[0], run[|run| - 1])
  {
    if |run| > 1 {
      assert HistoryGrows(run[|run| - 2], run[|run| - 2 + 1]);
      HistoryGrowsOn(run[..|run| - 1]);
    }
  }

  lemma SupersededStays(s: State, s': State, id: EntryId)
    requires Superseded(s, id) && HistoryGrows(s, s')
    ensures Superseded(s', id)
  {
  }

  lemma SupersededStay(s: State, s': State, page: seq<(EntryId, Task)>, n: nat)
    requires n <= |page| && HistoryGrows(s, s')
    requires forall k :: 0 <= k < n ==> Superseded(s, page[k].0)
    ensures forall k :: 0 <= k < n ==> Superseded(s', page[k].0)
  {
    hide Superseded, HistoryGrows;
    forall k | 0 <= k < n ensures Superseded(s', page[k].0) {
      SupersededStays(s, s', page[k].0);
    }
  }

  /** An operation about to delete a copy knows that it has been replaced. */
  lemma PcSuperseded(c: Config, s: State, a: Actor)
    requires Inv(c, s)
    requires var pc := PcOf(s, a); pc.NackAcked? || pc.NackAdded? || pc.ReclaimAdded? || pc.ReclaimDeleted?
    ensures Superseded(s, PcOf(s, a).id)
  {
    assert PcOk(c, s, s.pcs[a]);
  }

  lemma NackLuaSupersedes(c: Config, s: State, a: Actor, now: nat)
    requires Inv(c, s) && PcOf(s, a).Working? && PcOf(s, a).id in s.server.stream
    ensures Superseded(Apply(c, s, NackLua(a, now)), PcOf(s, a).id)
  {
    hide LatestLive, GroupFirst, HistoryGrows, Log, Superseded, LuaMove, NackMove;
    var id, t := PcOf(s, a).id, s.server.stream[PcOf(s, a).id];
    CursorSet(c, s, id);
    var job := JobOf(s, id);
    assert CopyOf(s, id, t);
    CopyFits(s, id, t, t);
    NackMoveCore(c, s, job, t, now);
    LuaMoveIsNackMove(c, s, job, t, now);
    SupersededOn(LuaMove(c, s, job, t, now), Apply(c, s, NackLua(a, now)), id);
  }
}
