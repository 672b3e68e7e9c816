/** What the entries of the Redis queue hold: every entry keeps the task it was written with,
    a worker holds exactly the task of its entry, and copies differ from the enqueued task in
    their attempts and due time only. */
module RedisPayload {
  import opened Wrappers
  import opened TaskQueue
  import opened RedisQueue

  // ---------------------------------------------------------------------------
  // What has been asked for, ordered and stored in a run
  // ---------------------------------------------------------------------------

  /** The task of the last enqueue call of each operation. */
  function Asked(cmds: seq<Command>): map<Actor, Task> {
    if cmds == [] then map[]
    else
      var n := |cmds| - 1;
      if cmds[n].StartEnqueue? then Asked(cmds[..n])[cmds[n].a := cmds[n].task] else Asked(cmds[..n])
  }

  function Before(c: Config, cmds: seq<Command>): (s: State)
    requires Run(c, cmds).Some? && cmds != []
    ensures Run(c, cmds[..|cmds| - 1]) == Some(s) && Enabled(s, cmds[|cmds| - 1])
    ensures Run(c, cmds) == Some(Apply(c, s, cmds[|cmds| - 1]))
  {
    Run(c, cmds[..|cmds| - 1]).value
  }

  /** The task each job was enqueued with. */
  function Ordered(c: Config, cmds: seq<Command>): map<Job, Task>
    requires Run(c, cmds).Some?
  {
    if cmds == [] then map[]
    else
      var n := |cmds| - 1;
      var s, so_far := Before(c, cmds), Ordered(c, cmds[..n]);
      if cmds[n].DoXAdd? && cmds[n].a in Asked(cmds[..n])
      then so_far[s.server.nextId := Asked(cmds[..n])[cmds[n].a]] else so_far
  }

  predicate Present(s: State, id: EntryId) { id in s.server.stream || id in s.server.dlq }

  function EntryAt(s: State, id: EntryId): Task
    requires Present(s, id)
  {
    if id in s.server.stream then s.server.stream[id] else s.server.dlq[id]
  }

  /** The task every entry, of the stream or the dead letters, was first seen with. */
  function Stored(c: Config, cmds: seq<Command>): map<EntryId, Task>
    requires Run(c, cmds).Some?
  {
    if cmds == [] then map[]
    else
      var s', seen := Run(c, cmds).value, Stored(c, cmds[..|cmds| - 1]);
      var unseen := s'.server.stream.Keys + s'.server.dlq.Keys - seen.Keys;
      seen + map id | id in unseen :: EntryAt(s', id)
  }

  // ---------------------------------------------------------------------------
  // What a step writes
  // ---------------------------------------------------------------------------

  datatype Copy = Copy(job: Job, task: Task, dead: bool)

  /** A nacked task: one more attempt, and put off unless it was the last. */
  function Charged(c: Config, t: Task, now: nat): Task {
    if t.attempts + 1 >= c.maxAttempts then t.(attempts := t.attempts + 1)
    else t.(attempts := t.attempts + 1, dueAt := Some(now + Backoff(c.backoffMs, t.attempts + 1)))
  }

  /** A reclaimed task: one more attempt unless it was the last. */
  function Reclaimed(c: Config, t: Task): Task {
    if t.attempts + 1 >= c.maxAttempts then t else t.(attempts := t.attempts + 1)
  }

  /** The copy a step writes, as a function of the task in its hands. */
  function NewCopy(c: Config, s: State, cmd: Command): Option<Copy>
    requires Enabled(s, cmd)
  {
    var pc := PcOf(s, cmd.a);
    match cmd
    case DoXAdd(_) => Some(Copy(s.server.nextId, pc.task, false))
    case Rotate(_, _) => Some(Copy(JobOf(s, pc.id), pc.task, false))
    case NackLua(_, now) =>
      if pc.id !in s.server.stream then None
      else
        var t := s.server.stream[pc.id];
        Some(Copy(JobOf(s, pc.id), Charged(c, t, now), t.attempts + 1 >= c.maxAttempts))
    case NackXAdd(_, now) =>
      Some(Copy(JobOf(s, pc.id), Charged(c, pc.task, now), pc.task.attempts + 1 >= c.maxAttempts))
    case ReclaimXAdd(_) =>
      var (id, t) := pc.page[0];
      Some(Copy(JobOf(s, id), Reclaimed(c, t), t.attempts + 1 >= c.maxAttempts))
    case RetryXAdd(_) => Some(Copy(JobOf(s, pc.id), pc.task.(attempts := 0), false))
    case _ => None
  }

  predicate SameEntries(m: map<EntryId, Task>, m': map<EntryId, Task>, new': EntryId) {
    forall id :: id in m' && id != new' ==> id in m && m'[id] == m[id]
  }

  /** The copy, and only it, is written under the next id; no other entry changes. */
  predicate Writes(s: State, s': State, copy: Option<Copy>) {
    var id := s.server.nextId;
    && SameEntries(s.server.stream, s'.server.stream, id) && SameEntries(s.server.dlq, s'.server.dlq, id)
    && match copy
       case None => s'.born == s.born && id !in s'.server.stream && id !in s'.server.dlq
       case Some(k) =>
         && s'.born == s.born[id := k.job]
         && (if k.dead then id !in s'.server.stream && id in s'.server.dlq && s'.server.dlq[id] == k.task
             else id !in s'.server.dlq && id in s'.server.stream && s'.server.stream[id] == k.task)
  }

  lemma WritesCopy(c: Config, s: State, cmd: Command)
    requires Inv(c, s) && Enabled(s, cmd) && c.maxAttempts > 0
    ensures Writes(s, Apply(c, s, cmd), NewCopy(c, s, cmd))
  {
    hide Inv, Apply, Writes, Enabled, NewCopy;
    NextIdFree(c, s);
    match cmd
    case DoXAdd(_) => AddWrites(c, s, cmd);
    case Rotate(_, _) => AddWrites(c, s, cmd);
    case RetryXAdd(_) => AddWrites(c, s, cmd);
    case NackLua(_, _) => LuaWrites(c, s, cmd);
    case NackXAdd(_, _) => NackWrites(c, s, cmd);
    case ReclaimXAdd(_) => ReclaimWrites(c, s, cmd);
    case _ => NothingWritten(c, s, cmd);
  }

  predicate NextFree(s: State) { s.server.nextId !in s.server.stream && s.server.nextId !in s.server.dlq }

  lemma AddWrites(c: Config, s: State, cmd: Command)
    requires NextFree(s) && Enabled(s, cmd) && (cmd.DoXAdd? || cmd.Rotate? || cmd.RetryXAdd?)
    ensures Writes(s, Apply(c, s, cmd), NewCopy(c, s, cmd))
  {
    hide LuaMove, NackMove, ReclaimMove, ClaimFilter;
  }

  lemma LuaWrites(c: Config, s: State, cmd: Command)
    requires NextFree(s) && Enabled(s, cmd) && cmd.NackLua?
    ensures Writes(s, Apply(c, s, cmd), NewCopy(c, s, cmd))
  {
    hide NackMove, ReclaimMove, ClaimFilter, Backoff, LuaMove, Writes, Charged;
    var pc := PcOf(s, cmd.a);
    if pc.id in s.server.stream {
      var t, job := s.server.stream[pc.id], JobOf(s, pc.id);
      var moved := LuaMove(c, s, job, t, cmd.now);
      LuaMoveWrites(c, s, job, t, cmd.now);
      DropKeepsWrites(s, moved, Apply(c, s, cmd), pc.id, NewCopy(c, s, cmd).value);
    } else {
      IdleWrites(s, Apply(c, s, cmd));
    }
  }

  lemma LuaMoveWrites(c: Config, s: State, job: Job, t: Task, now: nat)
    requires NextFree(s)
    ensures Writes(s, LuaMove(c, s, job, t, now), Some(Copy(job, Charged(c, t, now), t.attempts + 1 >= c.maxAttempts)))
  {
    hide Backoff;
  }

  lemma DropKeepsWrites(s: State, s1: State, s': State, id: EntryId, copy: Copy)
    requires NextFree(s) && id in s.server.stream && Writes(s, s1, Some(copy)) && s'.born == s1.born
    requires s'.server == XDel(XAck(s1.server, id), id)
    ensures Writes(s, s', Some(copy))
  {
  }

  lemma IdleWrites(s: State, s': State)
    requires NextFree(s) && s'.server == s.server && s'.born == s.born
    ensures Writes(s, s', None)
  {
  }

  lemma NackWrites(c: Config, s: State, cmd: Command)
    requires NextFree(s) && Enabled(s, cmd) && cmd.NackXAdd?
    ensures Writes(s, Apply(c, s, cmd), NewCopy(c, s, cmd))
  {
    hide LuaMove, ReclaimMove, ClaimFilter, Backoff;
  }

  lemma ReclaimWrites(c: Config, s: State, cmd: Command)
    requires NextFree(s) && Enabled(s, cmd) && cmd.ReclaimXAdd?
    ensures Writes(s, Apply(c, s, cmd), NewCopy(c, s, cmd))
  {
    hide LuaMove, NackMove, ClaimFilter, Backoff;
  }

  lemma NothingWritten(c: Config, s: State, cmd: Command)
    requires NextFree(s) && Enabled(s, cmd)
    requires !cmd.DoXAdd? && !cmd.Rotate? && !cmd.RetryXAdd? && !cmd.NackLua? && !cmd.NackXAdd? && !cmd.ReclaimXAdd?
    ensures Writes(s, Apply(c, s, cmd), NewCopy(c, s, cmd))
  {
    hide LuaMove, NackMove, ReclaimMove, Log;
  }

  lemma NextIdFree(c: Config, s: State)
    requires Inv(c, s)
    ensures s.server.nextId !in s.server.stream && s.server.nextId !in s.server.dlq && s.server.nextId !in s.born
  {
    hide LatestLive, AttemptsOk, GroupFirst, PcOk;
    assert forall id :: id in s.server.stream ==> CopyOf(s, id, s.server.stream[id]);
    assert forall id :: id in s.server.dlq ==> CopyOf(s, id, s.server.dlq[id]);
  }

  // ---------------------------------------------------------------------------
  // Entries keep their tasks, and workers hold them as stored
  // ---------------------------------------------------------------------------

  predicate HoldsEntry(stored: map<EntryId, Task>, id: EntryId, t: Task) { id in stored && stored[id] == t }

  /** Whatever an operation has read from an entry is the task stored in it, in every field. */
  predicate HoldsStored(stored: map<EntryId, Task>, pc: Pc) {
    match pc
    case Read(id, t) => HoldsEntry(stored, id, t)
    case Working(id, t) => HoldsEntry(stored, id, t)
    case NackRead(id, t) => HoldsEntry(stored, id, t)
    case RetryFound(id, t) => HoldsEntry(stored, id, t)
    case Claimed(page) => PageStored(stored, page)
    case ReclaimAdded(_, page) => PageStored(stored, page)
    case ReclaimDeleted(_, page) => PageStored(stored, page)
    case _ => true
  }

  predicate PageStored(stored: map<EntryId, Task>, page: seq<(EntryId, Task)>) {
    forall k :: 0 <= k < |page| ==> HoldsEntry(stored, page[k].0, page[k].1)
  }

  /** An enqueue on its way holds the task it was asked for. */
  predicate HoldsAsked(asked: map<Actor, Task>, a: Actor, pc: Pc) {
    pc.Enqueueing? || pc.GroupEnsured? ==> a in asked && pc.task == asked[a]
  }

  /** Everything the queue keeps of a task but its attempts and its due time. */
  predicate SamePayload(t: Task, u: Task) { t == u.(attempts := t.attempts, dueAt := t.dueAt) }

  predicate EntriesStored(s: State, stored: map<EntryId, Task>) {
    && stored.Keys == s.born.Keys
    && (forall id :: id in s.server.stream ==> HoldsEntry(stored, id, s.server.stream[id]))
    && (forall id :: id in s.server.dlq ==> HoldsEntry(stored, id, s.server.dlq[id]))
  }

  predicate CopiesMatch(s: State, stored: map<EntryId, Task>, ordered: map<Job, Task>) {
    forall id :: id in stored && id in s.born ==> s.born[id] in ordered && SamePayload(stored[id], ordered[s.born[id]])
  }

  ghost predicate Kept(c: Config, cmds: seq<Command>)
    requires Run(c, cmds).Some?
  {
    var s, stored := Run(c, cmds).value, Stored(c, cmds);
    && EntriesStored(s, stored) && CopiesMatch(s, stored, Ordered(c, cmds))
    && (forall a :: HoldsStored(stored, PcOf(s, a)))
    && (forall a :: HoldsAsked(Asked(cmds), a, PcOf(s, a)))
  }

  /** The store after a step. */
  lemma StoreStep(s: State, s': State, copy: Option<Copy>, stored: map<EntryId, Task>, stored': map<EntryId, Task>)
    requires EntriesStored(s, stored) && Writes(s, s', copy) && s.server.nextId !in s.born
    requires var unseen := s'.server.stream.Keys + s'.server.dlq.Keys - stored.Keys;
             stored' == stored + map id | id in unseen :: EntryAt(s', id)
    ensures EntriesStored(s', stored')
    ensures stored' == if copy.Some? then stored[s.server.nextId := copy.value.task] else stored
  {
    var id := s.server.nextId;
    if copy.None? {
      assert s'.server.stream.Keys + s'.server.dlq.Keys - stored.Keys == {};
      assert stored' == stored;
    } else {
      assert s'.server.stream.Keys + s'.server.dlq.Keys - stored.Keys == {id};
      assert EntryAt(s', id) == copy.value.task;
      assert stored' == stored[id := copy.value.task];
    }
  }

  lemma HeldStays(stored: map<EntryId, Task>, stored': map<EntryId, Task>, pc: Pc)
    requires HoldsStored(stored, pc) && forall id :: id in stored ==> id in stored' && stored'[id] == stored[id]
    ensures HoldsStored(stored', pc)
  {
  }

  /** An operation's step leaves it with what is stored. */
  lemma OwnHands(c: Config, s: State, cmd: Command, stored: map<EntryId, Task>)
    requires Enabled(s, cmd) && EntriesStored(s, stored) && HoldsStored(stored, PcOf(s, cmd.a))
    ensures HoldsStored(stored, PcOf(Apply(c, s, cmd), cmd.a))
  {
    hide LuaMove, NackMove, ReclaimMove, Log, ClaimFilter, XAck, XDel, XDelDlq;
    MovesKeepPcs(c, s);
  }

  lemma MovesKeepPcs(c: Config, s: State)
    ensures forall job, t, now :: LuaMove(c, s, job, t, now).pcs == s.pcs
    ensures forall job, t, now :: NackMove(c, s, job, t, now).pcs == s.pcs
    ensures forall job, t :: ReclaimMove(c, s, job, t).pcs == s.pcs
  {
    hide Backoff;
  }

  lemma OwnAsked(c: Config, s: State, cmd: Command, asked: map<Actor, Task>)
    requires Enabled(s, cmd) && HoldsAsked(asked, cmd.a, PcOf(s, cmd.a))
    ensures HoldsAsked(if cmd.StartEnqueue? then asked[cmd.a := cmd.task] else asked, cmd.a, PcOf(Apply(c, s, cmd), cmd.a))
  {
    hide LuaMove, NackMove, ReclaimMove, Log, ClaimFilter, XAck, XDel, XDelDlq;
  }

  lemma HandsKept(c: Config, cmds: seq<Command>, a: Actor)
    requires c.maxAttempts > 0 && Run(c, cmds).Some? && cmds != []
    requires var most := cmds[..|cmds| - 1];
             var s := Before(c, cmds);
             HoldsStored(Stored(c, most), PcOf(s, a)) && HoldsAsked(Asked(most), a, PcOf(s, a)) && EntriesStored(s, Stored(c, most))
    requires forall id :: id in Stored(c, cmds[..|cmds| - 1]) ==>
               id in Stored(c, cmds) && Stored(c, cmds)[id] == Stored(c, cmds[..|cmds| - 1])[id]
    ensures HoldsStored(Stored(c, cmds), PcOf(Run(c, cmds).value, a))
    ensures HoldsAsked(Asked(cmds), a, PcOf(Run(c, cmds).value, a))
  {
    hide Apply, Enabled, Stored, HoldsStored, EntriesStored, PcOf;
    var n := |cmds| - 1;
    var s := Before(c, cmds);
    if cmds[n].a == a {
      OwnHands(c, s, cmds[n], Stored(c, cmds[..n]));
      OwnAsked(c, s, cmds[n], Asked(cmds[..n]));
    } else {
      OthersStay(c, s, cmds[n], a);
    }
    HeldStays(Stored(c, cmds[..n]), Stored(c, cmds), PcOf(Run(c, cmds).value, a));
  }

  /** The new copy has the payload of its job. */
  lemma CopyPayload(c: Config, s: State, cmd: Command, stored: map<EntryId, Task>, ordered: map<Job, Task>, asked: map<Actor, Task>)
    requires Enabled(s, cmd) && NewCopy(c, s, cmd).Some?
    requires EntriesStored(s, stored) && CopiesMatch(s, stored, ordered)
    requires HoldsStored(stored, PcOf(s, cmd.a)) && HoldsAsked(asked, cmd.a, PcOf(s, cmd.a))
    ensures var copy := NewCopy(c, s, cmd).value;
            if cmd.DoXAdd? then cmd.a in asked && copy.job == s.server.nextId && copy.task == asked[cmd.a]
            else copy.job in ordered && SamePayload(copy.task, ordered[copy.job])
    ensures !cmd.DoXAdd? ==> exists id :: id in s.born && NewCopy(c, s, cmd).value.job == s.born[id]
  {
    hide Backoff;
  }

  lemma MatchStep(s: State, s': State, cmd: Command, copy: Option<Copy>, stored: map<EntryId, Task>,
                  ordered: map<Job, Task>, ordered': map<Job, Task>)
    requires Logged(s) && CopiesMatch(s, stored, ordered) && stored.Keys == s.born.Keys
    requires s'.born == if copy.Some? then s.born[s.server.nextId := copy.value.job] else s.born
    requires forall j :: j in ordered && j < s.server.nextId ==> j in ordered' && ordered'[j] == ordered[j]
    requires copy.Some? ==> copy.value.job in ordered' && SamePayload(copy.value.task, ordered'[copy.value.job])
    ensures CopiesMatch(s', if copy.Some? then stored[s.server.nextId := copy.value.task] else stored, ordered')
  {
    hide EntriesLogged, SamePayload;
  }

  lemma LoggedBefore(c: Config, s: State)
    requires Inv(c, s)
    ensures Logged(s)
  {
  }

  lemma StepKept(c: Config, cmds: seq<Command>)
    requires c.maxAttempts > 0 && Run(c, cmds).Some? && cmds != []
    requires Kept(c, cmds[..|cmds| - 1])
    ensures Kept(c, cmds)
  {
    hide Inv, Apply, Enabled, Run, NewCopy, Writes, EntriesStored, CopiesMatch, HoldsStored, HoldsAsked, Logged, SamePayload;
    var n := |cmds| - 1;
    var s, cmd := Before(c, cmds), cmds[n];
    var s' := Run(c, cmds).value;
    RunInv(c, cmds[..n]);
    NextIdFree(c, s);
    LoggedBefore(c, s);
    WritesCopy(c, s, cmd);
    StoredKept(c, cmds);
    MatchKept(c, cmds);
    forall a ensures HoldsStored(Stored(c, cmds), PcOf(s', a)) && HoldsAsked(Asked(cmds), a, PcOf(s', a)) {
      assert HoldsStored(Stored(c, cmds[..n]), PcOf(s, a)) && HoldsAsked(Asked(cmds[..n]), a, PcOf(s, a));
      HandsKept(c, cmds, a);
    }
  }

  lemma StoredKept(c: Config, cmds: seq<Command>)
    requires c.maxAttempts > 0 && Run(c, cmds).Some? && cmds != []
    requires EntriesStored(Before(c, cmds), Stored(c, cmds[..|cmds| - 1])) && Inv(c, Before(c, cmds))
    ensures EntriesStored(Run(c, cmds).value, Stored(c, cmds))
    ensures var copy := NewCopy(c, Before(c, cmds), cmds[|cmds| - 1]);
            Stored(c, cmds) == if copy.Some? then Stored(c, cmds[..|cmds| - 1])[Before(c, cmds).server.nextId := copy.value.task]
                               else Stored(c, cmds[..|cmds| - 1])
    ensures forall id :: id in Stored(c, cmds[..|cmds| - 1]) ==>
               id in Stored(c, cmds) && Stored(c, cmds)[id] == Stored(c, cmds[..|cmds| - 1])[id]
  {
    hide Inv, Apply, Enabled, Run, NewCopy, Writes, EntryAt;
    var n := |cmds| - 1;
    var s := Before(c, cmds);
    NextIdFree(c, s);
    WritesCopy(c, s, cmds[n]);
    StoreStep(s, Run(c, cmds).value, NewCopy(c, s, cmds[n]), Stored(c, cmds[..n]), Stored(c, cmds));
    assert s.server.nextId !in Stored(c, cmds[..n]);
  }

  lemma MatchKept(c: Config, cmds: seq<Command>)
    requires c.maxAttempts > 0 && Run(c, cmds).Some? && cmds != [] && Kept(c, cmds[..|cmds| - 1]) && Inv(c, Before(c, cmds))
    requires var copy := NewCopy(c, Before(c, cmds), cmds[|cmds| - 1]);
             Stored(c, cmds) == if copy.Some? then Stored(c, cmds[..|cmds| - 1])[Before(c, cmds).server.nextId := copy.value.task]
                                else Stored(c, cmds[..|cmds| - 1])
    ensures CopiesMatch(Run(c, cmds).value, Stored(c, cmds), Ordered(c, cmds))
  {
    hide Inv, Apply, Enabled, Run, NewCopy, Stored, CopiesMatch, HoldsStored, HoldsAsked, Logged;
    var n := |cmds| - 1;
    var s, cmd := Before(c, cmds), cmds[n];
    var copy := NewCopy(c, s, cmd);
    var ordered, ordered' := Ordered(c, cmds[..n]), Ordered(c, cmds);
    LoggedBefore(c, s);
    WritesCopy(c, s, cmd);
    assert HoldsStored(Stored(c, cmds[..n]), PcOf(s, cmd.a)) && HoldsAsked(Asked(cmds[..n]), cmd.a, PcOf(s, cmd.a));
    if copy.Some? { CopyPayload(c, s, cmd, Stored(c, cmds[..n]), ordered, Asked(cmds[..n])); }
    NotEarlier(s);
    MatchStep(s, Run(c, cmds).value, cmd, copy, Stored(c, cmds[..n]), ordered, ordered');
  }

  /** The jobs of the copies written so far are older than the next id. */
  lemma NotEarlier(s: State)
    requires Logged(s)
    ensures forall id :: id in s.born ==> s.born[id] < s.server.nextId
  {
  }

  lemma {:induction false} RunKept(c: Config, cmds: seq<Command>)
    requires c.maxAttempts > 0 && Run(c, cmds).Some?
    ensures Kept(c, cmds)
  {
    hide Kept, Apply, Enabled;
    if cmds == [] {
      NothingKept(c);
    } else {
      var s := Before(c, cmds);
      RunKept(c, cmds[..|cmds| - 1]);
      StepKept(c, cmds);
    }
  }

  lemma NothingKept(c: Config)
    ensures Kept(c, [])
  {
  }

  /** In every run, whatever a worker, a nack, a reclaim or a retry holds of an entry is the task
      that was stored in it, in every field. */
  lemma HeldIsStored(c: Config, cmds: seq<Command>, a: Actor)
    requires c.maxAttempts > 0 && Run(c, cmds).Some?
    ensures HoldsStored(Stored(c, cmds), PcOf(Run(c, cmds).value, a))
  {
    hide HoldsStored, Stored, EntriesStored, CopiesMatch;
    RunKept(c, cmds);
  }

  /** ... entries never change, and every copy of a job, wherever it is, is the task the job was
      enqueued with in everything but its attempts and its due time. */
  lemma CopiesKeepPayload(c: Config, cmds: seq<Command>, id: EntryId)
    requires c.maxAttempts > 0 && Run(c, cmds).Some? && Present(Run(c, cmds).value, id)
    ensures var s := Run(c, cmds).value;
            && id in Stored(c, cmds) && EntryAt(s, id) == Stored(c, cmds)[id]
            && id in s.born && s.born[id] in Ordered(c, cmds)
            && SamePayload(EntryAt(s, id), Ordered(c, cmds)[s.born[id]])
  {
    hide HoldsStored, Stored, Ordered, Run;
    RunKept(c, cmds);
  }

  /** A job was ordered by a call of enqueue with exactly this task. */
  lemma {:induction false} OrderedWasAsked(c: Config, cmds: seq<Command>, job: Job)
    requires Run(c, cmds).Some? && job in Ordered(c, cmds)
    ensures exists k :: 0 <= k < |cmds| && cmds[k].StartEnqueue? && cmds[k].task == Ordered(c, cmds)[job]
  {
    hide Apply, Enabled;
    var n := |cmds| - 1;
    var s := Before(c, cmds);
    if cmds[n].DoXAdd? && cmds[n].a in Asked(cmds[..n]) && job == s.server.nextId {
      var k := AskedBy(cmds[..n], cmds[n].a);
    } else {
      OrderedWasAsked(c, cmds[..n], job);
    }
  }

  lemma {:induction false} AskedBy(cmds: seq<Command>, a: Actor) returns (k: nat)
    requires a in Asked(cmds)
    ensures k < |cmds| && cmds[k].StartEnqueue? && cmds[k].a == a && cmds[k].task == Asked(cmds)[a]
  {
    var n := |cmds| - 1;
    if cmds[n].StartEnqueue? && cmds[n].a == a { k := n; } else { k := AskedBy(cmds[..n], a); }
  }

  /** The entry whose task a step copies. */
  function Source(s: State, cmd: Command): Option<EntryId>
    requires Enabled(s, cmd)
  {
    var pc := PcOf(s, cmd.a);
    match cmd
    case Rotate(_, _) => Some(pc.id)
    case NackLua(_, _) => if pc.id in s.server.stream then Some(pc.id) else None
    case NackXAdd(_, _) => Some(pc.id)
    case ReclaimXAdd(_) => Some(pc.page[0].0)
    case RetryXAdd(_) => Some(pc.id)
    case _ => None
  }

  /** What a copy may differ in from the task of its source: rotation copies it as it is, a nack
      charges one attempt and puts it off, reclaim charges one attempt, and a retry clears the
      attempts; a last attempt is dead-lettered, by reclaim as it is. */
  predicate CopyDiffers(c: Config, cmd: Command, t: Task, u: Task, dead: bool) {
    var last := t.attempts + 1 >= c.maxAttempts;
    match cmd
    case Rotate(_, _) => u == t && !dead
    case RetryXAdd(_) => u == t.(attempts := 0) && !dead
    case ReclaimXAdd(_) => dead == last && u == t.(attempts := if last then t.attempts else t.attempts + 1)
    case NackLua(_, now) => dead == last && Postponed(c, t, u, now, last)
    case NackXAdd(_, now) => dead == last && Postponed(c, t, u, now, last)
    case _ => false
  }

  predicate Postponed(c: Config, t: Task, u: Task, now: nat, last: bool) {
    && u == t.(attempts := t.attempts + 1, dueAt := u.dueAt)
    && (if last then u.dueAt == t.dueAt else u.dueAt == Some(now + Backoff(c.backoffMs, t.attempts + 1)))
  }

  /** Every step of every run, exactly: it stores one task, the one asked for or a copy of its
      source's as above, or none. */
  lemma StepStores(c: Config, cmds: seq<Command>)
    requires c.maxAttempts > 0 && Run(c, cmds).Some? && cmds != []
    ensures var n := |cmds| - 1;
            var s, cmd, was := Before(c, cmds), cmds[n], Stored(c, cmds[..n]);
            var s', id := Run(c, cmds).value, s.server.nextId;
            if cmd.DoXAdd? then
              cmd.a in Asked(cmds[..n]) && Stored(c, cmds) == was[id := Asked(cmds[..n])[cmd.a]] && id in s'.server.stream
            else if Source(s, cmd).Some? then
              var source := Source(s, cmd).value;
              && source in was && id in Stored(c, cmds) && Stored(c, cmds) == was[id := Stored(c, cmds)[id]]
              && CopyDiffers(c, cmd, was[source], Stored(c, cmds)[id], id in s'.server.dlq) && Present(s', id)
            else Stored(c, cmds) == was
  {
    hide Inv, Apply, Enabled, Run, Stored, HoldsStored, CopiesMatch, Backoff;
    var n := |cmds| - 1;
    var s, cmd := Before(c, cmds), cmds[n];
    RunKept(c, cmds[..n]);
    RunInv(c, cmds[..n]);
    StoredKept(c, cmds);
    WritesCopy(c, s, cmd);
    assert HoldsStored(Stored(c, cmds[..n]), PcOf(s, cmd.a)) && HoldsAsked(Asked(cmds[..n]), cmd.a, PcOf(s, cmd.a));
    SourceStored(c, s, cmd, Stored(c, cmds[..n]), Asked(cmds[..n]));
  }

  lemma SourceStored(c: Config, s: State, cmd: Command, stored: map<EntryId, Task>, asked: map<Actor, Task>)
    requires Enabled(s, cmd) && EntriesStored(s, stored)
    requires HoldsStored(stored, PcOf(s, cmd.a)) && HoldsAsked(asked, cmd.a, PcOf(s, cmd.a))
    ensures var copy, source := NewCopy(c, s, cmd), Source(s, cmd);
            if cmd.DoXAdd? then copy.Some? && cmd.a in asked && copy.value.task == asked[cmd.a] && !copy.value.dead
            else (copy.Some? <==> source.Some?)
                 && (copy.Some? ==> (source.value in stored
                       && CopyDiffers(c, cmd, stored[source.value], copy.value.task, copy.value.dead)))
  {
    hide Backoff;
  }
}
