/** Compaction of the message window (src/agent-loop/loop.ts): once the window is over the
    limit the oldest messages after the protected head go, as few as will do. */
module Compaction {
  import opened Wrappers

  const MAX_CONTEXT_CHARS: nat := 150_000

  /** Only the content of a message counts; it may be missing. */
  datatype Message = Message(role: string, content: Option<string>)

  function Size(m: Message): nat { if m.content.Some? then |m.content.value| else 0 }

  function Total(ms: seq<Message>): nat {
    if ms == [] then 0 else Total(ms[..|ms| - 1]) + Size(ms[|ms| - 1])
  }

  function Max(a: int, b: int): int { if a >= b then a else b }

  function Min(a: int, b: int): int { if a <= b then a else b }

  /** How many messages at the front are kept, and how many follow before the tail. */
  function Head(ms: seq<Message>, tail: int): nat { Max(0, Min(2, |ms| - Max(0, tail))) }

  function Droppable(ms: seq<Message>, tail: int): nat { Max(0, |ms| - Max(0, tail) - Head(ms, tail)) }

  /** The window without the first k messages after the head. */
  function Without(ms: seq<Message>, tail: int, k: nat): seq<Message>
    requires k <= Droppable(ms, tail)
  {
    ms[..Head(ms, tail)] + ms[Head(ms, tail) + k..]
  }

  /** What compaction promises about the number of messages it drops: it stops at the first
      window within the limit; when no window is, it drops all it may, unless that would not
      make the window smaller. */
  predicate Drops(ms: seq<Message>, tail: int, k: nat) {
    if Total(ms) <= MAX_CONTEXT_CHARS || |ms| <= 2 then k == 0
    else
      && k <= Droppable(ms, tail)
      && (forall j :: 0 <= j < k ==> Total(Without(ms, tail, j)) > MAX_CONTEXT_CHARS)
      && (|| Total(Without(ms, tail, k)) <= MAX_CONTEXT_CHARS
          || (k == Droppable(ms, tail) && Total(Without(ms, tail, k)) < Total(ms))
          || (k == 0 && Total(Without(ms, tail, Droppable(ms, tail))) == Total(ms)))
  }

  lemma {:induction false} TotalJoin(a: seq<Message>, b: seq<Message>)
    ensures Total(a + b) == Total(a) + Total(b)
  {
    if b == [] {
      assert a + b == a;
    } else {
      assert (a + b)[..|a + b| - 1] == a + b[..|b| - 1];
      TotalJoin(a, b[..|b| - 1]);
    }
  }

  lemma TotalSplit(ms: seq<Message>, i: nat, j: nat)
    requires i <= j <= |ms|
    ensures Total(ms) == Total(ms[..i]) + Total(ms[i..j]) + Total(ms[j..])
  {
    hide Total;
    assert ms == ms[..i] + ms[i..];
    assert ms[i..] == ms[i..j] + ms[j..];
    TotalJoin(ms[..i], ms[i..]);
    TotalJoin(ms[i..j], ms[j..]);
  }

  /** Dropping takes off the size of what is dropped. */
  lemma WithoutTotal(ms: seq<Message>, tail: int, k: nat)
    requires k <= Droppable(ms, tail)
    ensures var h := Head(ms, tail);
            Total(Without(ms, tail, k)) + Total(ms[h..h + k]) == Total(ms)
  {
    hide Total;
    var h := Head(ms, tail);
    TotalSplit(ms, h, h + k);
    TotalJoin(ms[..h], ms[h + k..]);
  }

  /** Dropping g messages and then j more. */
  lemma WithoutMore(ms: seq<Message>, tail: int, g: nat, j: nat)
    requires g + j <= Droppable(ms, tail)
    ensures var h, m := Head(ms, tail), Without(ms, tail, g);
            && h + j <= |m|
            && Without(ms, tail, g + j) == m[..h] + m[h + j..]
            && Total(Without(ms, tail, g + j)) + Total(m[h..h + j]) == Total(m)
  {
    hide Total;
    var h, m := Head(ms, tail), Without(ms, tail, g);
    assert m[h + j..] == ms[h + g + j..];
    TotalSplit(m, h, h + j);
    TotalJoin(m[..h], m[h + j..]);
  }

  /** What is left is the protected head followed by a suffix of the window that has the
      last `tail` messages in it. */
  lemma HeadAndSuffix(ms: seq<Message>, tail: int, k: nat)
    requires 0 <= tail && k <= Droppable(ms, tail)
    ensures var h, r := Head(ms, tail), Without(ms, tail, k);
            && r[..h] == ms[..h] && r[h..] == ms[h + k..]
            && (tail <= |ms| ==> tail <= |r| && r[|r| - tail..] == ms[|ms| - tail..])
            && (|ms| - tail >= 2 ==> h == 2)
  {
    var r := Without(ms, tail, k);
    if tail <= |ms| { assert r[|r| - tail..] == ms[|ms| - tail..]; }
  }

  lemma Shrinks(ms: seq<Message>, tail: int, j: nat, k: nat)
    requires j <= k <= Droppable(ms, tail)
    ensures Total(Without(ms, tail, k)) <= Total(Without(ms, tail, j))
  {
    hide Total, Without;
    var h := Head(ms, tail);
    WithoutTotal(ms, tail, j);
    WithoutTotal(ms, tail, k);
    assert ms[h..h + k] == ms[h..h + j] + ms[h + j..h + k];
    TotalJoin(ms[h..h + j], ms[h + j..h + k]);
  }

  /** There is exactly one such number, so the promise decides the result. */
  lemma DropsOnce(ms: seq<Message>, tail: int, j: nat, k: nat)
    requires Drops(ms, tail, j) && Drops(ms, tail, k)
    ensures j == k
  {
    hide Drops;
    if j < k { FewerIsNotEnough(ms, tail, j, k); } else if k < j { FewerIsNotEnough(ms, tail, k, j); }
  }

  lemma FewerIsNotEnough(ms: seq<Message>, tail: int, j: nat, k: nat)
    requires Drops(ms, tail, k) && j < k
    ensures !Drops(ms, tail, j)
  {
    Shrinks(ms, tail, k, Droppable(ms, tail));
  }

  /** Afterwards the window is within the limit, or nothing with content can be dropped. */
  lemma WithinOrNothingLeft(ms: seq<Message>, tail: int, k: nat)
    requires Drops(ms, tail, k) && |ms| > 2
    ensures var r := if Total(ms) <= MAX_CONTEXT_CHARS then ms else Without(ms, tail, k);
            Total(r) <= MAX_CONTEXT_CHARS
            || Total(ms[Head(ms, tail) + k..Head(ms, tail) + Droppable(ms, tail)]) == 0
  {
    var h, n := Head(ms, tail), Droppable(ms, tail);
    if Total(ms) > MAX_CONTEXT_CHARS {
      WithoutTotal(ms, tail, n);
    }
  }

  /** The size of j messages from a position on. */
  function Span(ms: seq<Message>, start: nat, j: nat): nat
    requires start + j <= |ms|
  {
    if j == 0 then 0 else Span(ms, start, j - 1) + Size(ms[start + j - 1])
  }

  lemma {:induction false} SpanIsTotal(ms: seq<Message>, start: nat, j: nat)
    requires start + j <= |ms|
    ensures Span(ms, start, j) == Total(ms[start..start + j])
  {
    if j > 0 {
      SpanIsTotal(ms, start, j - 1);
      assert ms[start..start + j][..j - 1] == ms[start..start + (j - 1)];
    }
  }

  class Window {
    var messages: seq<Message>

    constructor (messages: seq<Message>)
      ensures this.messages == messages
    {
      this.messages := messages;
    }

    /** In place: the window keeps its head and a suffix, with the promised number of
        messages gone. */
    method CompactMessages(protectedTail: int) returns (ghost gone: nat)
      modifies this
      ensures Drops(old(messages), protectedTail, gone)
      ensures messages == if gone == 0 then old(messages) else Without(old(messages), protectedTail, gone)
    {
      hide Total, Without, Span, Drops;
      ghost var was := messages;
      var total: nat := TotalSize();
      gone := 0;
      if total <= MAX_CONTEXT_CHARS || |messages| <= 2 {
        NothingToDrop(was, protectedTail);
        return;
      }
      var tail := Max(0, protectedTail);
      var keepHead := Max(0, Min(2, |messages| - tail));
      NothingGone(was, protectedTail);
      while total > MAX_CONTEXT_CHARS
        invariant Progress(was, protectedTail, gone, messages, total)
        decreases |messages|
      {
        Remaining(was, protectedTail, gone, messages, total);
        var end := Max(keepHead, |messages| - tail);
        if end <= keepHead { break; }
        var dropped, droppedChars := CountDropped(total, keepHead, end);
        Counted(was, protectedTail, gone, messages, dropped, total);
        if dropped == 0 || droppedChars == 0 { break; }
        messages := messages[..keepHead] + messages[keepHead + dropped..];
        total := total - droppedChars;
        gone := gone + dropped;
      }
      Done(was, protectedTail, gone, messages, total);
    }

    method TotalSize() returns (total: nat)
      ensures total == Total(messages)
    {
      total := 0;
      for i := 0 to |messages|
        invariant total == Total(messages[..i])
      {
        assert messages[..i + 1][..i] == messages[..i];
        total := total + Size(messages[i]);
      }
      assert messages[..|messages|] == messages;
    }

    /** Walk over the droppable messages until the rest is within the limit. */
    method CountDropped(total: nat, start: nat, end: nat) returns (dropped: nat, droppedChars: nat)
      requires start < end <= |messages| && total > MAX_CONTEXT_CHARS
      ensures 1 <= dropped <= end - start && droppedChars == Span(messages, start, dropped)
      ensures forall j :: 0 <= j < dropped ==> total > MAX_CONTEXT_CHARS + Span(messages, start, j)
      ensures total <= MAX_CONTEXT_CHARS + droppedChars || dropped == end - start
    {
      dropped, droppedChars := 0, 0;
      var i := start;
      while i < end
        invariant start <= i <= end && dropped == i - start && droppedChars == Span(messages, start, dropped)
        invariant forall j :: 0 <= j <= dropped ==> total > MAX_CONTEXT_CHARS + Span(messages, start, j)
      {
        droppedChars := droppedChars + Size(messages[i]);
        dropped := dropped + 1;
        if total <= MAX_CONTEXT_CHARS + droppedChars { break; }
        i := i + 1;
      }
    }
  }

  /** Where the loop stands after dropping `gone` messages. */
  predicate Progress(was: seq<Message>, tail: int, gone: nat, now: seq<Message>, total: nat) {
    && |was| > 2 && Total(was) > MAX_CONTEXT_CHARS
    && gone <= Droppable(was, tail) && now == Without(was, tail, gone) && total == Total(now)
    && (forall j :: 0 <= j < gone ==> Total(Without(was, tail, j)) > MAX_CONTEXT_CHARS)
    && (gone > 0 ==> total < Total(was) && (gone == Droppable(was, tail) || total <= MAX_CONTEXT_CHARS))
  }

  /** The loop is over, or cannot get on. */
  lemma Done(was: seq<Message>, tail: int, gone: nat, now: seq<Message>, total: nat)
    requires Progress(was, tail, gone, now, total)
    requires total <= MAX_CONTEXT_CHARS || gone == Droppable(was, tail)
             || (gone == 0 && Total(Without(was, tail, Droppable(was, tail))) == Total(was))
    ensures Drops(was, tail, gone) && (gone == 0 ==> now == was)
  {
    NothingGone(was, tail);
  }

  lemma NothingGone(ms: seq<Message>, tail: int)
    ensures Without(ms, tail, 0) == ms
    ensures |ms| > 2 && Total(ms) > MAX_CONTEXT_CHARS ==> Progress(ms, tail, 0, ms, Total(ms))
  {
  }

  lemma NothingToDrop(ms: seq<Message>, tail: int)
    requires Total(ms) <= MAX_CONTEXT_CHARS || |ms| <= 2
    ensures Drops(ms, tail, 0)
  {
  }

  lemma Remaining(was: seq<Message>, tail: int, gone: nat, now: seq<Message>, total: nat)
    requires Progress(was, tail, gone, now, total)
    ensures gone <= Droppable(was, tail) && |now| == |was| - gone && Head(was, tail) <= |now|
    ensures Max(Head(was, tail), |now| - Max(0, tail)) - Head(was, tail) == Droppable(was, tail) - gone
    ensures total > MAX_CONTEXT_CHARS && gone < Droppable(was, tail) ==> gone == 0
  {
  }

  /** The walk's counts keep the loop's account. */
  lemma Counted(was: seq<Message>, tail: int, gone: nat, now: seq<Message>, dropped: nat, total: nat)
    requires Progress(was, tail, gone, now, total) && gone == 0 && 1 <= dropped <= Droppable(was, tail)
    requires var h := Head(was, tail);
             h + dropped <= |now|
             && (forall j :: 0 <= j < dropped ==> total > MAX_CONTEXT_CHARS + Span(now, h, j))
             && (total <= MAX_CONTEXT_CHARS + Span(now, h, dropped) || dropped == Droppable(was, tail))
    ensures var h := Head(was, tail);
            && Span(now, h, dropped) <= total
            && (Span(now, h, dropped) > 0 ==>
                  Progress(was, tail, dropped, now[..h] + now[h + dropped..], total - Span(now, h, dropped)))
            && (Span(now, h, dropped) == 0 ==> Total(Without(was, tail, Droppable(was, tail))) == Total(was))
  {
    hide Total, Without;
    var h := Head(was, tail);
    NothingGone(was, tail);
    SpanIsTotal(now, h, dropped);
    WithoutMore(was, tail, 0, dropped);
    forall j | 0 <= j < dropped ensures Total(Without(was, tail, j)) > MAX_CONTEXT_CHARS {
      SpanIsTotal(now, h, j);
      WithoutMore(was, tail, 0, j);
    }
  }
}
