/** The send, call, execute, append loop (src/agent-loop/turn-loop.ts), run against any
    scripted model, executors and hooks. The hooks leave the messages alone. */
module TurnLoop {
  import opened Wrappers
  import opened TokenUsage
  import Hardening

  datatype ToolCall = ToolCall(id: string, name: string)

  datatype Message =
    | Text(role: string, text: Option<string>)
    | Assistant(text: Option<string>, toolCalls: seq<ToolCall>)
    | Tool(toolCallId: string, name: string, content: string)

  datatype SendResult =
    | SendFailed(message: string)
    | Reply(text: Option<string>, toolCalls: seq<ToolCall>, usage: Option<Usage>)

  datatype CallResult = Returned(content: string, isError: bool) | Threw(message: string)

  datatype StartHook = Go | Abort | AbortWith(reason: string)

  datatype Failure =
    | ApiError(turn: int, message: string)
    | UnknownTool(turn: int, name: string)
    | ToolError(turn: int, name: string)
    | ToolThrew(turn: int, name: string, content: string)

  /** What everybody else does, turn by turn, and the options of the loop. */
  datatype Script = Script(
    onTurnStart: int -> StartHook,
    send: int -> SendResult,
    execute: (int, nat) -> CallResult,
    onTurn: int -> bool,
    tools: set<string>,
    unknownToolContent: string -> string,
    taskComplete: Option<string>,
    maxToolResultChars: nat,
    truncateSuffix: string,
    billingModel: string)

  // ---------------------------------------------------------------------------
  // What one turn does
  // ---------------------------------------------------------------------------

  /** One executed call: the message content, whether it counts as an error, and the error
      that is reported. */
  datatype Record = Record(call: ToolCall, content: string, failure: Option<Failure>)

  function Truncated(sc: Script, content: string): string {
    if |content| <= sc.maxToolResultChars then content
    else content[..sc.maxToolResultChars] + sc.truncateSuffix
  }

  /** A result within the limit is kept; a longer one is cut at the limit and gets the suffix. */
  lemma CutAtTheLimit(sc: Script, content: string)
    ensures var kept := Truncated(sc, content);
            if |content| <= sc.maxToolResultChars then kept == content
            else
              && |kept| == sc.maxToolResultChars + |sc.truncateSuffix|
              && (forall k :: 0 <= k < sc.maxToolResultChars ==> kept[k] == content[k])
              && (forall k :: 0 <= k < |sc.truncateSuffix| ==> kept[sc.maxToolResultChars + k] == sc.truncateSuffix[k])
  {
  }

  function ErrorText(name: string, message: string): string {
    "Error executing \"" + name + "\": " + message
  }

  /** Unknown tools, failing tools and throwing tools all yield a result message. */
  function RecordOf(sc: Script, turn: int, k: nat, call: ToolCall): Record {
    var (content, failure) :=
      if call.name !in sc.tools then (sc.unknownToolContent(call.name), Some(UnknownTool(turn, call.name)))
      else
        match sc.execute(turn, k)
        case Returned(content, isError) => (content, if isError then Some(ToolError(turn, call.name)) else None)
        case Threw(message) =>
          (ErrorText(call.name, message), Some(ToolThrew(turn, call.name, ErrorText(call.name, message))));
    Record(call, Hardening.SanitizeToolResult(Truncated(sc, content)), failure)
  }

  function CallsAt(sc: Script, turn: int): seq<ToolCall> {
    if sc.send(turn).Reply? then sc.send(turn).toolCalls else []
  }

  function RecordsTo(sc: Script, turn: int, k: nat): seq<Record>
    requires k <= |CallsAt(sc, turn)|
  {
    if k == 0 then [] else RecordsTo(sc, turn, k - 1) + [RecordOf(sc, turn, k - 1, CallsAt(sc, turn)[k - 1])]
  }

  function RecordsAt(sc: Script, turn: int): seq<Record> { RecordsTo(sc, turn, |CallsAt(sc, turn)|) }

  function ToolMessages(rs: seq<Record>): seq<Message> {
    if rs == [] then []
    else
      var last := rs[|rs| - 1];
      ToolMessages(rs[..|rs| - 1]) + [Tool(last.call.id, last.call.name, last.content)]
  }

  function Failures(rs: seq<Record>): seq<Failure> {
    if rs == [] then []
    else
      var last := rs[|rs| - 1];
      Failures(rs[..|rs| - 1]) + if last.failure.Some? then [last.failure.value] else []
  }

  function TurnMessages(sc: Script, turn: int): seq<Message> {
    if sc.send(turn).Reply?
    then [Assistant(sc.send(turn).text, CallsAt(sc, turn))] + ToolMessages(RecordsAt(sc, turn))
    else []
  }

  /** Why the loop stops in this turn, if it does. */
  function StopAt(sc: Script, turn: int): Option<string> {
    match sc.onTurnStart(turn)
    case Abort => Some("budget_exceeded")
    case AbortWith(reason) => Some(reason)
    case Go =>
      match sc.send(turn)
      case SendFailed(_) => Some("api_error")
      case Reply(_, calls, _) =>
        if calls == [] then Some("no_tool_calls")
        else if !sc.onTurn(turn) then Some("budget_exceeded")
        else if WantsComplete(sc, calls) then Some("task_complete")
        else None
  }

  predicate WantsComplete(sc: Script, calls: seq<ToolCall>) {
    sc.taskComplete.Some? && exists k :: 0 <= k < |calls| && calls[k].name == sc.taskComplete.value
  }

  /** The turn the loop stops in; past maxTurns when it never does. */
  function LastTurn(sc: Script, turn: int, maxTurns: int): (last: int)
    ensures turn <= last
    ensures forall t :: turn <= t < last && t <= maxTurns ==> StopAt(sc, t).None?
    ensures last <= maxTurns ==> StopAt(sc, last).Some?
    ensures turn <= maxTurns ==> last <= maxTurns + 1
    ensures turn > maxTurns ==> last == turn
    decreases maxTurns - turn
  {
    if turn > maxTurns || StopAt(sc, turn).Some? then turn else LastTurn(sc, turn + 1, maxTurns)
  }

  predicate Replies(sc: Script, turn: int) { sc.onTurnStart(turn).Go? && sc.send(turn).Reply? }

  /** How many turns got a reply. */
  function CompletedTurns(sc: Script, startTurn: int, maxTurns: int): nat {
    var last := LastTurn(sc, startTurn, maxTurns);
    last - startTurn + if last <= maxTurns && Replies(sc, last) then 1 else 0
  }

  // ---------------------------------------------------------------------------
  // What a run of turns leaves behind
  // ---------------------------------------------------------------------------

  predicate AllReply(sc: Script, first: int, n: nat) { forall t :: first <= t < first + n ==> Replies(sc, t) }

  /** The messages appended by n turns, starting with the first. */
  function Transcript(sc: Script, first: int, n: nat): seq<Message> {
    if n == 0 then [] else Transcript(sc, first, n - 1) + TurnMessages(sc, first + n - 1)
  }

  function AllRecords(sc: Script, first: int, n: nat): seq<Record> {
    if n == 0 then [] else AllRecords(sc, first, n - 1) + RecordsAt(sc, first + n - 1)
  }

  function UsageAt(sc: Script, turn: int): seq<Usage> {
    if sc.send(turn).Reply? && sc.send(turn).usage.Some? then
      var u := sc.send(turn).usage.value;
      [if sc.billingModel != "" then u.(model := Some(sc.billingModel)) else u]
    else []
  }

  function AllUsage(sc: Script, first: int, n: nat): seq<Usage> {
    if n == 0 then [] else AllUsage(sc, first, n - 1) + UsageAt(sc, first + n - 1)
  }

  /** How many of the calls have a name, and how many of those succeeded. */
  function Count(rs: seq<Record>, name: string): nat {
    if rs == [] then 0
    else Count(rs[..|rs| - 1], name) + if rs[|rs| - 1].call.name == name then 1 else 0
  }

  function Successes(rs: seq<Record>, name: string): nat {
    if rs == [] then 0
    else Successes(rs[..|rs| - 1], name) + if rs[|rs| - 1].call.name == name && rs[|rs| - 1].failure.None? then 1 else 0
  }

  datatype Rate = Rate(success: nat, fail: nat)

  /** toolCounts and toolSuccessRates describe these calls. */
  ghost predicate Tallies(rs: seq<Record>, counts: map<string, nat>, rates: map<string, Rate>) {
    && counts.Keys == rates.Keys
    && (forall name :: name in counts <==> Count(rs, name) > 0)
    && (forall name :: name in counts ==> counts[name] == Count(rs, name))
    && (forall name :: name in rates ==>
          rates[name].success == Successes(rs, name) && rates[name].fail == Count(rs, name) - Successes(rs, name))
  }

  // ---------------------------------------------------------------------------
  // Accounting
  // ---------------------------------------------------------------------------

  /** Every counted name is listed once. */
  ghost predicate EachOnce(counts: map<string, nat>, order: seq<string>) {
    && (forall name :: name in counts <==> name in order)
    && (forall i, j :: 0 <= i < j < |order| ==> order[i] != order[j])
  }

  function SumOver(names: seq<string>, counts: map<string, nat>): nat
    requires forall name :: name in names ==> name in counts
  {
    if names == [] then 0 else SumOver(names[..|names| - 1], counts) + counts[names[|names| - 1]]
  }

  function CountAll(names: seq<string>, rs: seq<Record>): nat {
    if names == [] then 0 else CountAll(names[..|names| - 1], rs) + Count(rs, names[|names| - 1])
  }

  /** One more call is counted once when its name is listed once. */
  lemma {:induction false} CountAllMore(names: seq<string>, rs: seq<Record>, r: Record)
    requires forall i, j :: 0 <= i < j < |names| ==> names[i] != names[j]
    ensures CountAll(names, rs + [r]) == CountAll(names, rs) + if r.call.name in names then 1 else 0
  {
    OneMore(rs, r);
    hide Count;
    if names != [] {
      var n := |names| - 1;
      CountAllMore(names[..n], rs, r);
      assert r.call.name in names <==> r.call.name in names[..n] || r.call.name == names[n];
    }
  }

  lemma {:induction false} CountAllIsAll(names: seq<string>, rs: seq<Record>)
    requires forall i, j :: 0 <= i < j < |names| ==> names[i] != names[j]
    requires forall k :: 0 <= k < |rs| ==> rs[k].call.name in names
    ensures CountAll(names, rs) == |rs|
  {
    if rs == [] {
      NothingCounted(names);
    } else {
      var n := |rs| - 1;
      assert rs == rs[..n] + [rs[n]];
      CountAllIsAll(names, rs[..n]);
      CountAllMore(names, rs[..n], rs[n]);
    }
  }

  lemma {:induction false} NothingCounted(names: seq<string>)
    ensures CountAll(names, []) == 0
  {
    if names != [] { NothingCounted(names[..|names| - 1]); }
  }

  lemma {:induction false} SumIsCountAll(names: seq<string>, counts: map<string, nat>, rs: seq<Record>)
    requires forall name :: name in names ==> name in counts && counts[name] == Count(rs, name)
    ensures SumOver(names, counts) == CountAll(names, rs)
  {
    hide Count;
    if names != [] { SumIsCountAll(names[..|names| - 1], counts, rs); }
  }

  /** totalToolCalls, the number of calls, is the sum of the tool counts, and the sum of
      successes plus failures. */
  lemma {:induction false} TalliesAddUp(rs: seq<Record>, counts: map<string, nat>, rates: map<string, Rate>, order: seq<string>)
    requires Tallies(rs, counts, rates) && EachOnce(counts, order)
    ensures SumOver(order, counts) == |rs|
    ensures SumOver(order, map name | name in rates :: rates[name].success + rates[name].fail) == |rs|
  {
    forall k | 0 <= k < |rs| ensures rs[k].call.name in order { Counted(rs, k); }
    CountAllIsAll(order, rs);
    SumIsCountAll(order, counts, rs);
    SuccessesBounded(rs);
    assert (map name | name in rates :: rates[name].success + rates[name].fail) == counts;
  }

  lemma {:induction false} Counted(rs: seq<Record>, k: nat)
    requires k < |rs|
    ensures Count(rs, rs[k].call.name) > 0
  {
    if k < |rs| - 1 { Counted(rs[..|rs| - 1], k); }
  }

  lemma {:induction false} SuccessesBounded(rs: seq<Record>)
    ensures forall name :: Successes(rs, name) <= Count(rs, name)
  {
    if rs != [] { SuccessesBounded(rs[..|rs| - 1]); }
  }

  lemma OneMore(rs: seq<Record>, r: Record)
    ensures forall name :: Count(rs + [r], name) == Count(rs, name) + if r.call.name == name then 1 else 0
    ensures forall name :: Successes(rs + [r], name)
                        == Successes(rs, name) + if r.call.name == name && r.failure.None? then 1 else 0
    ensures Failures(rs + [r]) == Failures(rs) + if r.failure.Some? then [r.failure.value] else []
    ensures ToolMessages(rs + [r]) == ToolMessages(rs) + [Tool(r.call.id, r.call.name, r.content)]
  {
    assert (rs + [r])[..|rs|] == rs;
  }

  // ---------------------------------------------------------------------------
  // The transcript
  // ---------------------------------------------------------------------------

  /** The messages start with an assistant message and one tool message per call of it, in
      order and with matching ids and names. */
  predicate Answered(ms: seq<Message>)
    requires ms != []
    ensures Answered(ms) ==> ms[0].Assistant? && 1 + |ms[0].toolCalls| <= |ms|
  {
    && ms[0].Assistant? && 1 + |ms[0].toolCalls| <= |ms|
    && forall k :: 0 <= k < |ms[0].toolCalls| ==>
         ms[1 + k].Tool? && ms[1 + k].toolCallId == ms[0].toolCalls[k].id && ms[1 + k].name == ms[0].toolCalls[k].name
  }

  /** Read on its own, a transcript is a sequence of such exchanges. */
  predicate Paired(ms: seq<Message>)
    decreases |ms|
  {
    ms == [] || (Answered(ms) && Paired(ms[1 + |ms[0].toolCalls|..]))
  }

  lemma {:induction false} RecordsFollowCalls(sc: Script, turn: int, k: nat)
    requires k <= |CallsAt(sc, turn)|
    ensures |RecordsTo(sc, turn, k)| == k
    ensures forall j :: 0 <= j < k ==> RecordsTo(sc, turn, k)[j].call == CallsAt(sc, turn)[j]
  {
    hide RecordOf;
    if k > 0 {
      RecordsFollowCalls(sc, turn, k - 1);
      CallOf(sc, turn, k - 1, CallsAt(sc, turn)[k - 1]);
    }
  }

  lemma {:induction false} MessagesFollowRecords(rs: seq<Record>)
    ensures |ToolMessages(rs)| == |rs|
    ensures forall j :: 0 <= j < |rs| ==>
              ToolMessages(rs)[j] == Tool(rs[j].call.id, rs[j].call.name, rs[j].content)
  {
    if rs != [] { MessagesFollowRecords(rs[..|rs| - 1]); }
  }

  lemma CallOf(sc: Script, turn: int, k: nat, call: ToolCall)
    ensures RecordOf(sc, turn, k, call).call == call
  {
  }

  lemma AnsweredJoin(a: seq<Message>, b: seq<Message>)
    requires a != [] && Answered(a)
    ensures Answered(a + b) && (a + b)[0] == a[0]
  {
    assert forall k :: 0 <= k < |a| ==> (a + b)[k] == a[k];
  }

  lemma {:induction false} PairedJoin(a: seq<Message>, b: seq<Message>)
    requires Paired(a) && Paired(b)
    ensures Paired(a + b)
    decreases |a|
  {
    hide Answered;
    if a == [] {
      assert a + b == b;
    } else {
      assert Answered(a);
      var n := 1 + |a[0].toolCalls|;
      AnsweredJoin(a, b);
      assert (a + b)[n..] == a[n..] + b;
      PairedJoin(a[n..], b);
    }
  }

  lemma TurnPaired(sc: Script, t: int)
    ensures Paired(TurnMessages(sc, t))
  {
    hide RecordOf, RecordsTo, ToolMessages;
    RecordsFollowCalls(sc, t, |CallsAt(sc, t)|);
    MessagesFollowRecords(RecordsAt(sc, t));
    var ms := TurnMessages(sc, t);
    if ms != [] { assert ms[1 + |ms[0].toolCalls|..] == []; }
  }

  /** The appended messages pair every assistant message with its tool results. */
  lemma {:induction false} TranscriptPaired(sc: Script, first: int, n: nat)
    ensures Paired(Transcript(sc, first, n))
  {
    hide Paired, TurnMessages;
    if n == 0 {
      NothingPaired();
    } else {
      TranscriptPaired(sc, first, n - 1);
      TurnPaired(sc, first + n - 1);
      PairedJoin(Transcript(sc, first, n - 1), TurnMessages(sc, first + n - 1));
    }
  }

  lemma NothingPaired()
    ensures Paired([])
  {
  }

  /** ... and there is one assistant message for each of the turns that got a reply. */
  lemma {:induction false} OneAssistantPerTurn(sc: Script, first: int, n: nat)
    requires AllReply(sc, first, n)
    ensures Assistants(Transcript(sc, first, n)) == n
  {
    hide RecordOf, RecordsTo, ToolMessages;
    if n > 0 {
      OneAssistantPerTurn(sc, first, n - 1);
      var t := first + n - 1;
      assert Replies(sc, t);
      var tools := ToolMessages(RecordsAt(sc, t));
      MessagesFollowRecords(RecordsAt(sc, t));
      NoAssistants(tools);
      AssistantsJoin(Transcript(sc, first, n - 1), TurnMessages(sc, t));
      AssistantsJoin([Assistant(sc.send(t).text, CallsAt(sc, t))], tools);
    }
  }

  function Assistants(ms: seq<Message>): nat {
    if ms == [] then 0 else Assistants(ms[..|ms| - 1]) + if ms[|ms| - 1].Assistant? then 1 else 0
  }

  lemma {:induction false} NoAssistants(ms: seq<Message>)
    requires forall k :: 0 <= k < |ms| ==> ms[k].Tool?
    ensures Assistants(ms) == 0
  {
    if ms != [] { NoAssistants(ms[..|ms| - 1]); }
  }

  lemma {:induction false} AssistantsJoin(a: seq<Message>, b: seq<Message>)
    ensures Assistants(a + b) == Assistants(a) + Assistants(b)
  {
    if b == [] {
      assert a + b == a;
    } else {
      assert (a + b)[..|a + b| - 1] == a + b[..|b| - 1];
      AssistantsJoin(a, b[..|b| - 1]);
    }
  }

  // ---------------------------------------------------------------------------
  // Stop reasons
  // ---------------------------------------------------------------------------

  function StopReason(sc: Script, startTurn: int, maxTurns: int): string {
    var last := LastTurn(sc, startTurn, maxTurns);
    if last <= maxTurns then StopAt(sc, last).value else "unknown"
  }

  /** The last turn whose send was attempted. */
  function TurnsUsed(sc: Script, startTurn: int, maxTurns: int): int {
    var last := LastTurn(sc, startTurn, maxTurns);
    if last <= maxTurns && sc.onTurnStart(last).Go? then last else last - 1
  }

  function RemapStopReason(stopReason: string, turnsUsed: int, maxTurns: int): string {
    if stopReason == "unknown" && turnsUsed >= maxTurns then "max_turns" else stopReason
  }

  /** The reported reason is 'unknown' exactly when a hook returned that string. */
  lemma UnknownOnlyFromHook(sc: Script, startTurn: int, maxTurns: int)
    ensures RemapStopReason(StopReason(sc, startTurn, maxTurns), TurnsUsed(sc, startTurn, maxTurns), maxTurns) == "unknown"
            <==> var last := LastTurn(sc, startTurn, maxTurns);
                 last <= maxTurns && sc.onTurnStart(last) == AbortWith("unknown")
  {
    var last := LastTurn(sc, startTurn, maxTurns);
    NotUnknown();
    if last <= maxTurns { assert StopAt(sc, last).Some?; }
  }

  lemma NotUnknown()
    ensures "unknown" !in ["budget_exceeded", "api_error", "no_tool_calls", "task_complete", "max_turns"]
  {
    assert "unknown"[0] == 'u';
    assert "budget_exceeded"[0] == 'b' && "api_error"[0] == 'a' && "no_tool_calls"[0] == 'n'
           && "task_complete"[0] == 't' && "max_turns"[0] == 'm';
  }

  /** A completion call has been answered. */
  predicate Completes(ms: seq<Message>, tool: Option<string>) {
    tool.Some? && exists k :: 0 <= k < |ms| && ms[k].Tool? && ms[k].name == tool.value
  }

  predicate EndsInReply(ms: seq<Message>) { ms != [] && ms[|ms| - 1].Assistant? }

  lemma CompletesJoin(a: seq<Message>, b: seq<Message>, tool: Option<string>)
    ensures Completes(a + b, tool) <==> Completes(a, tool) || Completes(b, tool)
  {
    if Completes(a, tool) {
      var k :| 0 <= k < |a| && a[k].Tool? && a[k].name == tool.value;
      assert (a + b)[k] == a[k];
    }
    if Completes(b, tool) {
      var k :| 0 <= k < |b| && b[k].Tool? && b[k].name == tool.value;
      assert (a + b)[|a| + k] == b[k];
    }
  }

  lemma ExchangeEnds(ms: seq<Message>, calls: seq<ToolCall>, tool: Option<string>)
    requires |ms| == 1 + |calls| && ms[0].Assistant?
    requires forall k :: 0 <= k < |calls| ==> ms[1 + k].Tool? && ms[1 + k].name == calls[k].name
    ensures EndsInReply(ms) <==> calls == []
    ensures Completes(ms, tool) <==> tool.Some? && exists k :: 0 <= k < |calls| && calls[k].name == tool.value
  {
    if calls != [] {
      var k := |calls| - 1;
      assert calls[k] in calls;
      assert ms[1 + k].Tool?;
    }
    if tool.Some? && exists k :: 0 <= k < |calls| && calls[k].name == tool.value {
      var k :| 0 <= k < |calls| && calls[k].name == tool.value;
      assert ms[1 + k].Tool?;
    }
    if Completes(ms, tool) {
      var k :| 0 <= k < |ms| && ms[k].Tool? && ms[k].name == tool.value;
      assert calls[k - 1].name == ms[1 + (k - 1)].name;
    }
  }

  /** One turn that got a reply ends in that reply exactly when it has no calls, and answers a
      completion call exactly when one was made. */
  lemma TurnEnds(sc: Script, t: int)
    requires Replies(sc, t)
    ensures TurnMessages(sc, t) != []
    ensures EndsInReply(TurnMessages(sc, t)) <==> CallsAt(sc, t) == []
    ensures Completes(TurnMessages(sc, t), sc.taskComplete) <==> WantsComplete(sc, CallsAt(sc, t))
    ensures CallsAt(sc, t) == [] ==> !WantsComplete(sc, CallsAt(sc, t))
  {
    hide RecordOf, RecordsTo, ToolMessages, EndsInReply, Completes;
    var calls, tools := CallsAt(sc, t), ToolMessages(RecordsAt(sc, t));
    RecordsFollowCalls(sc, t, |calls|);
    MessagesFollowRecords(RecordsAt(sc, t));
    assert forall k :: 0 <= k < |calls| ==> tools[k].Tool? && tools[k].name == calls[k].name;
    ExchangeEnds(TurnMessages(sc, t), calls, sc.taskComplete);
  }

  lemma {:induction false} TurnsGoOn(sc: Script, first: int, n: nat)
    requires forall t :: first <= t < first + n ==> StopAt(sc, t).None?
    ensures !Completes(Transcript(sc, first, n), sc.taskComplete) && !EndsInReply(Transcript(sc, first, n))
  {
    hide TurnMessages, Completes, WantsComplete;
    if n == 0 {
      NothingCompletes(sc.taskComplete);
    } else {
      TurnsGoOn(sc, first, n - 1);
      NoFailureWithoutStop(sc, first + n - 1);
      TurnEnds(sc, first + n - 1);
      CompletesJoin(Transcript(sc, first, n - 1), TurnMessages(sc, first + n - 1), sc.taskComplete);
      assert CallsAt(sc, first + n - 1) != [] && !WantsComplete(sc, CallsAt(sc, first + n - 1));
    }
  }

  lemma NothingCompletes(tool: Option<string>)
    ensures !Completes([], tool)
  {
  }

  /** The last turn said to stop: before it was sent, or after its calls were answered. */
  predicate HookStops(sc: Script, last: int) {
    sc.onTurnStart(last).Abort? || (Replies(sc, last) && !sc.onTurn(last))
  }

  /** What the reason says: it is the one a hook has chosen before the last turn; or else the
      transcript ends in a reply, or the send failed, or a hook stopped the loop, or a completion
      call has been answered, or every turn was used without any of these. The turns used are
      those before the first one, the ones that got a reply, and the one whose send failed. */
  lemma StopReasonMeans(sc: Script, startTurn: int, maxTurns: int)
    ensures var reason, last := StopReason(sc, startTurn, maxTurns), LastTurn(sc, startTurn, maxTurns);
            var ms := Transcript(sc, startTurn, CompletedTurns(sc, startTurn, maxTurns));
            if last <= maxTurns && sc.onTurnStart(last).AbortWith? then reason == sc.onTurnStart(last).reason
            else
              && (reason == "no_tool_calls" <==> EndsInReply(ms))
              && (reason == "api_error" <==> SendFailure(sc, startTurn, maxTurns) != [])
              && (reason == "budget_exceeded" <==> last <= maxTurns && HookStops(sc, last) && !EndsInReply(ms))
              && (reason == "task_complete" <==> Completes(ms, sc.taskComplete) && !HookStops(sc, last))
              && (reason == "unknown" <==> last > maxTurns)
    ensures TurnsUsed(sc, startTurn, maxTurns)
            == startTurn - 1 + CompletedTurns(sc, startTurn, maxTurns) + |SendFailure(sc, startTurn, maxTurns)|
  {
    hide Transcript, TurnMessages, Completes, WantsComplete, EndsInReply;
    var last, n := LastTurn(sc, startTurn, maxTurns), CompletedTurns(sc, startTurn, maxTurns);
    DifferentReasons();
    if last <= maxTurns && Replies(sc, last) {
      LastTranscript(sc, startTurn, n);
      TurnEnds(sc, last);
    } else {
      TurnsGoOn(sc, startTurn, n);
    }
  }

  /** Of a loop whose last turn got a reply, only that turn can have ended it. */
  lemma LastTranscript(sc: Script, first: int, n: nat)
    requires n > 0 && Replies(sc, first + n - 1) && forall t :: first <= t < first + n - 1 ==> StopAt(sc, t).None?
    ensures EndsInReply(Transcript(sc, first, n)) <==> EndsInReply(TurnMessages(sc, first + n - 1))
    ensures Completes(Transcript(sc, first, n), sc.taskComplete) <==> Completes(TurnMessages(sc, first + n - 1), sc.taskComplete)
  {
    hide TurnMessages, Completes, WantsComplete, StopAt;
    TurnsGoOn(sc, first, n - 1);
    TurnEnds(sc, first + n - 1);
    OneMoreTurn(sc, first, n - 1);
    CompletesJoin(Transcript(sc, first, n - 1), TurnMessages(sc, first + n - 1), sc.taskComplete);
  }

  lemma DifferentReasons()
    ensures var rs := ["budget_exceeded", "api_error", "no_tool_calls", "task_complete", "unknown"];
            forall i, j :: 0 <= i < j < 5 ==> rs[i] != rs[j]
  {
    NotUnknown();
    assert "budget_exceeded"[0] == 'b' && "api_error"[0] == 'a' && "no_tool_calls"[0] == 'n' && "task_complete"[0] == 't';
  }

  // ---------------------------------------------------------------------------
  // The loop
  // ---------------------------------------------------------------------------

  datatype Result = Result(
    turnsUsed: int, totalToolCalls: nat, toolsCalled: seq<(string, nat)>, rates: map<string, Rate>,
    tokenUsage: Totals, usagePerCall: seq<Usage>, stopReason: string, errors: seq<Failure>)

  /** Most used first. */
  predicate Descending(s: seq<(string, nat)>) { forall i, j :: 0 <= i < j < |s| ==> s[i].1 >= s[j].1 }

  method InsertCount(sorted: seq<(string, nat)>, entry: (string, nat)) returns (r: seq<(string, nat)>)
    requires Descending(sorted)
    ensures Descending(r) && multiset(r) == multiset(sorted) + multiset{entry}
  {
    var at := |sorted|;
    while at > 0 && sorted[at - 1].1 < entry.1
      invariant 0 <= at <= |sorted| && forall i :: at <= i < |sorted| ==> sorted[i].1 < entry.1
    {
      at := at - 1;
    }
    r := sorted[..at] + [entry] + sorted[at..];
    InsertPermutes(sorted, at, entry);
  }

  lemma InsertPermutes(s: seq<(string, nat)>, at: nat, entry: (string, nat))
    requires at <= |s|
    ensures multiset(s[..at] + [entry] + s[at..]) == multiset(s) + multiset{entry}
  {
    assert s == s[..at] + s[at..];
  }

  /** The counters in the order their names came up. */
  function Entries(counts: map<string, nat>, order: seq<string>): seq<(string, nat)>
    requires forall name :: name in order ==> name in counts
  {
    if order == [] then []
    else
      var last := order[|order| - 1];
      Entries(counts, order[..|order| - 1]) + [(last, counts[last])]
  }

  /** toolsCalled: the counters, most used first. */
  method SortCounts(counts: map<string, nat>, order: seq<string>) returns (sorted: seq<(string, nat)>)
    requires forall name :: name in order ==> name in counts
    ensures Descending(sorted) && multiset(sorted) == multiset(Entries(counts, order))
  {
    sorted := [];
    for k := 0 to |order|
      invariant Descending(sorted) && multiset(sorted) == multiset(Entries(counts, order[..k]))
    {
      assert order[..k + 1][..k] == order[..k];
      sorted := InsertCount(sorted, (order[k], counts[order[k]]));
    }
    assert order[..|order|] == order;
  }

  class Conversation {
    var messages: seq<Message>
    var counts: map<string, nat>
    var order: seq<string>
    var rates: map<string, Rate>
    var errors: seq<Failure>
    var totalToolCalls: nat

    constructor (messages: seq<Message>)
      ensures this.messages == messages && Accounts([])
    {
      this.messages := messages;
      counts, order, rates, errors, totalToolCalls := map[], [], map[], [], 0;
    }

    /** The tallies and errors describe these calls. */
    ghost predicate Accounts(rs: seq<Record>)
      reads this
    {
      && Tallies(rs, counts, rates) && totalToolCalls == |rs| && errors == Failures(rs)
      && EachOnce(counts, order)
    }

    /** Execute one call; whatever goes wrong becomes its result. */
    method RunTool(sc: Script, turn: int, k: nat, tc: ToolCall) returns (content: string, isError: bool)
      modifies this`errors
      ensures Hardening.SanitizeToolResult(Truncated(sc, content)) == RecordOf(sc, turn, k, tc).content
      ensures var failure := RecordOf(sc, turn, k, tc).failure;
              (isError <==> failure.Some?)
              && errors == old(errors) + if failure.Some? then [failure.value] else []
    {
      hide Hardening.SanitizeToolResult, Truncated, ErrorText;
      if tc.name !in sc.tools {
        content, isError := sc.unknownToolContent(tc.name), true;
        errors := errors + [UnknownTool(turn, tc.name)];
      } else {
        match sc.execute(turn, k) {
          case Returned(text, failed) =>
            content, isError := text, failed;
            if isError { errors := errors + [ToolError(turn, tc.name)]; }
          case Threw(message) =>
            content, isError := ErrorText(tc.name, message), true;
            errors := errors + [ToolThrew(turn, tc.name, content)];
        }
      }
    }

    method CountCall(name: string)
      modifies this`totalToolCalls, this`counts, this`order
      ensures totalToolCalls == old(totalToolCalls) + 1 && counts == Bump(old(counts), name)
      ensures order == if name in old(counts) then old(order) else old(order) + [name]
    {
      totalToolCalls := totalToolCalls + 1;
      if name !in counts { order := order + [name]; }
      counts := counts[name := (if name in counts then counts[name] else 0) + 1];
    }

    method RateCall(name: string, isError: bool)
      modifies this`rates
      ensures rates == Rated(old(rates), name, !isError)
    {
      var rate := if name in rates then rates[name] else Rate(0, 0);
      rate := if isError then rate.(fail := rate.fail + 1) else rate.(success := rate.success + 1);
      rates := rates[name := rate];
    }

    /** Execute one call, append its result and count it. */
    method ExecuteCall(sc: Script, turn: int, k: nat, tc: ToolCall, ghost rs: seq<Record>)
      requires Accounts(rs)
      modifies this
      ensures Accounts(rs + [RecordOf(sc, turn, k, tc)])
      ensures messages == old(messages) + [Tool(tc.id, tc.name, RecordOf(sc, turn, k, tc).content)]
    {
      hide Hardening.SanitizeToolResult, Truncated, RecordOf, Tallies, EachOnce, Bump, Rated, Failures;
      ghost var r := RecordOf(sc, turn, k, tc);
      CallOf(sc, turn, k, tc);
      TallyOne(rs, r, counts, rates);
      OrderOne(counts, order, tc.name);
      OneMore(rs, r);
      CountCall(tc.name);
      var content, isError := RunTool(sc, turn, k, tc);
      content := Truncated(sc, content);
      content := Hardening.SanitizeToolResult(content);
      messages := messages + [Tool(tc.id, tc.name, content)];
      RateCall(tc.name, isError);
    }

    /** All calls of a reply, in order. */
    method ExecuteCalls(sc: Script, turn: int, ghost rs: seq<Record>)
      requires Accounts(rs)
      modifies this
      ensures Accounts(rs + RecordsAt(sc, turn))
      ensures messages == old(messages) + ToolMessages(RecordsAt(sc, turn))
    {
      hide RecordOf, Accounts;
      var calls := CallsAt(sc, turn);
      assert rs + [] == rs;
      for k := 0 to |calls|
        invariant Accounts(rs + RecordsTo(sc, turn, k))
        invariant messages == old(messages) + ToolMessages(RecordsTo(sc, turn, k))
      {
        ghost var r, done := RecordOf(sc, turn, k, calls[k]), RecordsTo(sc, turn, k);
        ExecuteCall(sc, turn, k, calls[k], rs + done);
        assert rs + done + [r] == rs + (done + [r]);
        CallOf(sc, turn, k, calls[k]);
        OneMore(done, r);
      }
    }

    /** Appending a message counts nothing. */
    method Say(m: Message, ghost rs: seq<Record>)
      requires Accounts(rs)
      modifies this`messages
      ensures messages == old(messages) + [m] && Accounts(rs)
    {
      messages := messages + [m];
    }

    /** Append the reply and run its calls. */
    method TakeReply(sc: Script, startTurn: int, n: nat, usage: Totals, usagePerCall: seq<Usage>)
      returns (usage': Totals, usagePerCall': seq<Usage>)
      requires sc.send(startTurn + n).Reply? && Accounts(AllRecords(sc, startTurn, n))
      requires usagePerCall == AllUsage(sc, startTurn, n) && usage == Sum(usagePerCall)
      modifies this
      ensures Accounts(AllRecords(sc, startTurn, n + 1))
      ensures messages == old(messages) + TurnMessages(sc, startTurn + n)
      ensures usagePerCall' == AllUsage(sc, startTurn, n + 1) && usage' == Sum(usagePerCall')
    {
      hide RecordsTo, RecordsAt, Accounts, ToolMessages, AllUsage, Sum, Plus;
      MoreUsage(sc, startTurn, n);
      var response := sc.send(startTurn + n);
      Say(Assistant(response.text, response.toolCalls), AllRecords(sc, startTurn, n));
      usage', usagePerCall' := usage, usagePerCall;
      if response.usage.Some? {
        var u := response.usage.value;
        usage' := Plus(usage, u);
        usagePerCall' := usagePerCall + [if sc.billingModel != "" then u.(model := Some(sc.billingModel)) else u];
      }
      ExecuteCalls(sc, startTurn + n, AllRecords(sc, startTurn, n));
    }

    /** One iteration: the hooks, the send, the calls, and the stop conditions in order. */
    method TakeTurn(sc: Script, startTurn: int, n: nat, usage: Totals, usagePerCall: seq<Usage>)
      returns (stop: Option<string>, apiErrors: seq<Failure>, n': nat, usage': Totals, usagePerCall': seq<Usage>)
      requires Accounts(AllRecords(sc, startTurn, n))
      requires usagePerCall == AllUsage(sc, startTurn, n) && usage == Sum(usagePerCall)
      modifies this
      ensures stop == StopAt(sc, startTurn + n)
      ensures n' == n + if Replies(sc, startTurn + n) then 1 else 0
      ensures Accounts(AllRecords(sc, startTurn, n'))
      ensures messages == old(messages) + if Replies(sc, startTurn + n) then TurnMessages(sc, startTurn + n) else []
      ensures usagePerCall' == AllUsage(sc, startTurn, n') && usage' == Sum(usagePerCall')
      ensures apiErrors == FailureAt(sc, startTurn + n)
    {
      hide Accounts, AllRecords, AllUsage, Sum, TurnMessages, WantsComplete;
      var turn := startTurn + n;
      n', usage', usagePerCall', apiErrors := n, usage, usagePerCall, [];
      var outcome := sc.onTurnStart(turn);
      if outcome.Abort? { return Some("budget_exceeded"), [], n', usage', usagePerCall'; }
      if outcome.AbortWith? { return Some(outcome.reason), [], n', usage', usagePerCall'; }
      var response := sc.send(turn);
      if response.SendFailed? {
        return Some("api_error"), [ApiError(turn, response.message)], n', usage', usagePerCall';
      }
      usage', usagePerCall' := TakeReply(sc, startTurn, n, usage, usagePerCall);
      n' := n + 1;
      var noCalls := response.toolCalls == [];
      if noCalls {
        stop := Some("no_tool_calls");
      } else if !sc.onTurn(turn) {
        stop := Some("budget_exceeded");
      } else if WantsComplete(sc, response.toolCalls) {
        stop := Some("task_complete");
      } else {
        stop := None;
      }
    }

    /** The loop. Its messages are the transcript of the turns that got a reply, its tallies
        and errors describe exactly the calls of those turns, and its usage is the sum of
        what they reported. */
    method RunTurnLoop(sc: Script, startTurn: int, maxTurns: int) returns (r: Result)
      requires Accounts([])
      modifies this
      ensures var n := CompletedTurns(sc, startTurn, maxTurns);
              var rs := AllRecords(sc, startTurn, n);
              && messages == old(messages) + Transcript(sc, startTurn, n)
              && Tallies(rs, counts, r.rates) && r.totalToolCalls == |rs|
              && r.errors == Failures(rs) + SendFailure(sc, startTurn, maxTurns)
              && r.usagePerCall == AllUsage(sc, startTurn, n) && r.tokenUsage == Sum(r.usagePerCall)
      ensures EachOnce(counts, order) && Descending(r.toolsCalled) && multiset(r.toolsCalled) == multiset(Entries(counts, order))
      ensures r.stopReason == StopReason(sc, startTurn, maxTurns) && r.turnsUsed == TurnsUsed(sc, startTurn, maxTurns)
    {
      hide Accounts, Transcript, AllRecords, AllUsage, Sum, Failures, TurnMessages, Tallies, EachOnce, StopAt, FailureAt, Entries, Descending;
      var usage, usagePerCall, stopReason, turnsUsed, apiErrors := NoTokens(), [], "unknown", startTurn - 1, [];
      var n := 0;
      NoTurns(sc, startTurn);
      assert messages + [] == messages;
      while startTurn + n <= maxTurns
        invariant turnsUsed == startTurn + n - 1 && stopReason == "unknown" && apiErrors == []
        invariant LastTurn(sc, startTurn, maxTurns) == LastTurn(sc, startTurn + n, maxTurns)
        invariant messages == old(messages) + Transcript(sc, startTurn, n)
        invariant Accounts(AllRecords(sc, startTurn, n))
        invariant usagePerCall == AllUsage(sc, startTurn, n) && usage == Sum(usagePerCall)
        decreases maxTurns - startTurn - n
      {
        var turn := startTurn + n;
        OneMoreTurn(sc, startTurn, n);
        StopsWithoutReply(sc, turn);
        ghost var said := messages;
        var stop: Option<string>;
        stop, apiErrors, n, usage, usagePerCall := TakeTurn(sc, startTurn, n, usage, usagePerCall);
        assert said + [] == said;
        if sc.onTurnStart(turn).Go? { turnsUsed := turn; }
        if stop.Some? { stopReason := stop.value; break; }
        NoFailureWithoutStop(sc, turn);
      }
      AccountsFor(AllRecords(sc, startTurn, n));
      var toolsCalled := SortCounts(counts, order);
      SendFailureIs(sc, startTurn, maxTurns);
      r := Result(turnsUsed, totalToolCalls, toolsCalled, rates, usage, usagePerCall, stopReason, errors + apiErrors);
    }

    lemma AccountsFor(rs: seq<Record>)
      requires Accounts(rs)
      ensures Tallies(rs, counts, rates) && totalToolCalls == |rs| && errors == Failures(rs) && EachOnce(counts, order)
      ensures forall name :: name in order ==> name in counts
    {
    }
  }

  function FailureAt(sc: Script, turn: int): seq<Failure> {
    if sc.onTurnStart(turn).Go? && sc.send(turn).SendFailed? then [ApiError(turn, sc.send(turn).message)] else []
  }

  function SendFailure(sc: Script, startTurn: int, maxTurns: int): seq<Failure> {
    var last := LastTurn(sc, startTurn, maxTurns);
    if last <= maxTurns then FailureAt(sc, last) else []
  }

  lemma SendFailureIs(sc: Script, startTurn: int, maxTurns: int)
    ensures var last := LastTurn(sc, startTurn, maxTurns);
            SendFailure(sc, startTurn, maxTurns) == if last <= maxTurns then FailureAt(sc, last) else []
  {
  }

  lemma MoreUsage(sc: Script, first: int, n: nat)
    requires sc.send(first + n).Reply?
    ensures AllUsage(sc, first, n + 1) == AllUsage(sc, first, n) + UsageAt(sc, first + n)
    ensures Sum(AllUsage(sc, first, n + 1))
         == var used := sc.send(first + n).usage;
            if used.Some? then Plus(Sum(AllUsage(sc, first, n)), used.value) else Sum(AllUsage(sc, first, n))
  {
    var before := AllUsage(sc, first, n);
    if sc.send(first + n).usage.Some? {
      var one := UsageAt(sc, first + n)[0];
      assert (before + [one])[..|before|] == before;
    } else {
      assert before + [] == before;
    }
  }

  lemma StopsWithoutReply(sc: Script, turn: int)
    ensures !Replies(sc, turn) ==> StopAt(sc, turn).Some?
    ensures Replies(sc, turn) ==> sc.onTurnStart(turn).Go?
  {
  }

  lemma NoFailureWithoutStop(sc: Script, turn: int)
    ensures StopAt(sc, turn).None? ==> FailureAt(sc, turn) == [] && Replies(sc, turn)
  {
  }

  lemma NoTurns(sc: Script, first: int)
    ensures Transcript(sc, first, 0) == [] && AllRecords(sc, first, 0) == [] && AllUsage(sc, first, 0) == []
    ensures Sum([]) == NoTokens()
  {
  }

  lemma OneMoreTurn(sc: Script, first: int, n: nat)
    ensures Transcript(sc, first, n + 1) == Transcript(sc, first, n) + TurnMessages(sc, first + n)
  {
  }

  lemma OrderOne(counts: map<string, nat>, order: seq<string>, name: string)
    requires EachOnce(counts, order)
    ensures EachOnce(Bump(counts, name), if name in counts then order else order + [name])
  {
    var order' := if name in counts then order else order + [name];
    assert forall x :: x in order' <==> x in order || x == name;
  }

  function Bump(counts: map<string, nat>, name: string): map<string, nat> {
    counts[name := (if name in counts then counts[name] else 0) + 1]
  }

  function Rated(rates: map<string, Rate>, name: string, ok: bool): map<string, Rate> {
    var rate := if name in rates then rates[name] else Rate(0, 0);
    rates[name := if ok then rate.(success := rate.success + 1) else rate.(fail := rate.fail + 1)]
  }

  lemma TallyOne(rs: seq<Record>, r: Record, counts: map<string, nat>, rates: map<string, Rate>)
    requires Tallies(rs, counts, rates)
    ensures Tallies(rs + [r], Bump(counts, r.call.name), Rated(rates, r.call.name, r.failure.None?))
  {
    OneMore(rs, r);
    SuccessesBounded(rs);
  }
}
