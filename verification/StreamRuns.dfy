/** Theorems about every run of a stream. */
module StreamRuns {
  import opened Decimal
  import opened StreamSpec

  // ----- One step keeps the invariant -----

  lemma OfferOk(c: Chan, log: seq<Event>, e: Event)
    requires ChanOk(c, log, false)
    ensures ChanOk(Offer(c, e, |log|), log + [e], false)
  {
  }

  /** The scan finds exactly the buffered events whose id is above the given one. */
  lemma {:induction false} FirstAboveMeaning(events: seq<Event>, id: int, first: int)
    requires forall i :: 0 <= i < |events| ==> Num(events[i]) == first + i
    ensures FirstAbove(events, id) == if id < first then 0 else if id >= first + |events| then |events|
        else id + 1 - first
  {
    if |events| > 0 && Num(events[0]) <= id {
      forall i | 0 <= i < |events[1..]| ensures Num(events[1..][i]) == first + 1 + i {
        assert events[1..][i] == events[i + 1];
      }
      FirstAboveMeaning(events[1..], id, first + 1);
    }
  }

  lemma SuffixOfSuffix(log: seq<Event>, k: nat, n: nat)
    requires k + n <= |log|
    ensures log[k..][n..] == log[k + n..]
  {
  }

  /** A new channel that holds a suffix of the log. */
  lemma SuffixDelivered(c: Chan, log: seq<Event>, start: nat, done: bool)
    requires start <= |log| && |log| - start <= CHANNEL_SLOTS
    requires c == Chan(log[start..], 0, !done, done, seq(|log| - start, i requires 0 <= i => start + i), 0, start,
        |log|, false)
    ensures ChanOk(c, log, done)
  {
  }

  lemma JoinedOk(s: Stream, n: nat)
    requires Inv(s) && n <= |s.events| && |s.events| - n <= CHANNEL_SLOTS
    ensures ChanOk(Joined(s, s.events[n..]), s.log, s.done)
  {
    var start := |s.log| - |s.events| + n;
    SuffixOfSuffix(s.log, |s.log| - |s.events|, n);
    assert s.events[n..] == s.log[start..];
    SuffixDelivered(Joined(s, s.events[n..]), s.log, start, s.done);
  }

  lemma SubscribeKeepsInv(s: Stream, lastEventID: string)
    requires Inv(s)
    ensures Inv(SubscribeStep(s, lastEventID))
  {
    if !Unreachable(s) && !Blocks(s, lastEventID) {
      JoinedOk(s, ReplayFrom(s.events, lastEventID));
    }
  }

  lemma AppendKeepsChans(s: Stream, e: Event)
    requires Inv(s) && !s.done
    ensures forall k :: 0 <= k < |s.chans| ==> ChanOk(Append(s, e).chans[k], s.log + [e], false)
  {
    forall k | 0 <= k < |s.chans| ensures ChanOk(Offer(s.chans[k], e, |s.log|), s.log + [e], false) {
      OfferOk(s.chans[k], s.log, e);
    }
  }

  lemma TrimOk(events: seq<Event>, log: seq<Event>, e: Event)
    requires |events| == BufferLength(|log|, false) && |events| <= |log| && events == log[|log| - |events|..]
    ensures var after := Trim(events + [e]);
      |after| == BufferLength(|log| + 1, false) && after == (log + [e])[|log| + 1 - |after|..]
  {
    assert events + [e] == (log + [e])[|log| - |events|..];
  }

  lemma LogGrows(s: Stream, t: Stream, e: Event)
    requires LogOk(s) && !s.done && e.id == Itoa(s.nextID)
    requires t.log == s.log + [e] && t.nextID == s.nextID + 1 && e.kind == if t.done then "complete" else "output"
    ensures LogOk(t)
  {
    forall i | 0 <= i < |t.log| ensures t.log[i].id == Itoa(i + 1) {
      if i < |s.log| { assert t.log[i] == s.log[i]; }
    }
  }

  lemma PublishKeepsInv(s: Stream, data: string)
    requires Inv(s)
    ensures Inv(PublishStep(s, data))
  {
    if !Unreachable(s) && !s.done {
      var e := Event(Itoa(s.nextID), "output", data);
      var t := PublishStep(s, data);
      assert t.chans == Append(s, e).chans && t.log == s.log + [e];
      LogGrows(s, t, e);
      assert BufferOk(t) by { TrimOk(s.events, s.log, e); }
      AppendKeepsChans(s, e);
    }
  }

  lemma CloseOk(c: Chan, log: seq<Event>, done: bool)
    requires ChanOk(c, log, false)
    ensures ChanOk(Close(c, true), log, false)
    ensures |log| > 0 ==> ChanOk(Close(c, false), log, true)
  {
  }

  lemma ClosedOk(chans: seq<Chan>, log: seq<Event>)
    requires |log| > 0 && forall k :: 0 <= k < |chans| ==> ChanOk(chans[k], log, false)
    ensures forall k :: 0 <= k < |chans| ==> ChanOk(CloseAll(chans, false)[k], log, true)
  {
    forall k | 0 <= k < |chans| ensures ChanOk(CloseAll(chans, false)[k], log, true) {
      CloseOk(chans[k], log, false);
    }
  }

  lemma CompleteKeepsInv(s: Stream, data: string)
    requires Inv(s)
    ensures Inv(CompleteStep(s, data))
  {
    if !Unreachable(s) && !s.done {
      var e := Event(Itoa(s.nextID), "complete", data);
      var open := Append(s, e).chans;
      var t := CompleteStep(s, data);
      AppendKeepsChans(s, e);
      assert t.chans == CloseAll(open, false) && t.log == s.log + [e];
      ClosedOk(open, t.log);
      LogGrows(s, t, e);
      assert t.events == t.log[|s.log| - |s.events|..];
    }
  }

  lemma ChanReplaceOk(s: Stream, k: nat, c: Chan)
    requires Inv(s) && k < |s.chans| && ChanOk(c, s.log, s.done) && (s.gone ==> !c.registered)
    ensures Inv(s.(chans := s.chans[k := c]))
  {
  }

  lemma UnsubscribeKeepsInv(s: Stream, k: nat)
    requires Inv(s)
    ensures Inv(UnsubscribeStep(s, k))
  {
    if !s.stuck && k < |s.chans| {
      if !s.done { CloseOk(s.chans[k], s.log, false); }
      ChanReplaceOk(s, k, Close(s.chans[k], true));
    }
  }

  lemma TakenOk(c: Chan, log: seq<Event>, done: bool)
    requires ChanOk(c, log, done) && c.taken < |c.sent|
    ensures ChanOk(c.(taken := c.taken + 1), log, done)
  {
  }

  lemma ReceiveKeepsInv(s: Stream, k: nat)
    requires Inv(s)
    ensures Inv(ReceiveStep(s, k))
  {
    if k < |s.chans| && s.chans[k].taken < |s.chans[k].sent| {
      var c := s.chans[k].(taken := s.chans[k].taken + 1);
      TakenOk(s.chans[k], s.log, s.done);
      ChanReplaceOk(s, k, c);
      assert ReceiveStep(s, k) == s.(chans := s.chans[k := c]);
    }
  }

  lemma CleanupKeepsInv(s: Stream)
    requires Inv(s)
    ensures Inv(CleanupStep(s))
  {
    if !s.done {
      forall k | 0 <= k < |s.chans| ensures ChanOk(Close(s.chans[k], true), s.log, false) {
        CloseOk(s.chans[k], s.log, false);
      }
    }
  }

  lemma StepKeepsInv(s: Stream, op: Op)
    requires Inv(s)
    ensures Inv(Step(s, op))
  {
    match op
    case Subscribe(lastEventID) => SubscribeKeepsInv(s, lastEventID);
    case Publish(data) => PublishKeepsInv(s, data);
    case Complete(data) => CompleteKeepsInv(s, data);
    case Unsubscribe(k) => UnsubscribeKeepsInv(s, k);
    case Receive(k) => ReceiveKeepsInv(s, k);
    case Cleanup => CleanupKeepsInv(s);
  }

  /** Every reachable state of a stream satisfies the invariant. */
  lemma {:induction false} RunKeepsInv(trace: seq<Op>)
    ensures Inv(Run(trace))
  {
    if |trace| > 0 {
      RunKeepsInv(trace[..|trace| - 1]);
      StepKeepsInv(Run(trace[..|trace| - 1]), trace[|trace| - 1]);
    }
  }

  // ----- The log, from the calls alone -----

  predicate Completed(trace: seq<Op>) {
    exists i :: 0 <= i < |trace| && trace[i].Complete?
  }

  /** What was published before the first Complete, and that Complete, numbered from 1. */
  function Emitted(trace: seq<Op>): seq<Event> {
    if |trace| == 0 then []
    else
      var earlier := trace[..|trace| - 1];
      var es := Emitted(earlier);
      match trace[|trace| - 1]
      case Publish(data) => if Completed(earlier) then es else es + [Event(Itoa(|es| + 1), "output", data)]
      case Complete(data) => if Completed(earlier) then es else es + [Event(Itoa(|es| + 1), "complete", data)]
      case _ => es
  }

  lemma NextIdCounts(trace: seq<Op>)
    ensures Run(trace).nextID == |Run(trace).log| + 1
  {
    RunKeepsInv(trace);
  }

  lemma CompletedStep(trace: seq<Op>)
    requires |trace| > 0
    ensures Completed(trace) <==> Completed(trace[..|trace| - 1]) || trace[|trace| - 1].Complete?
  {
    var earlier := trace[..|trace| - 1];
    if Completed(earlier) {
      var i :| 0 <= i < |earlier| && earlier[i].Complete?;
      assert trace[i].Complete?;
    }
  }

  /** Unless the stream wedged or was cleaned up, its log is the numbered sequence of the calls' payloads. */
  lemma {:induction false} LogIsEmitted(trace: seq<Op>)
    requires !Unreachable(Run(trace))
    ensures Run(trace).log == Emitted(trace) && (Run(trace).done <==> Completed(trace))
  {
    if |trace| > 0 {
      var earlier := trace[..|trace| - 1];
      var s := Run(earlier);
      LogIsEmitted(earlier);
      NextIdCounts(earlier);
      CompletedStep(trace);
      assert Run(trace) == Step(s, trace[|trace| - 1]);
    }
  }

  // ----- What holds in every reachable state -----

  ghost predicate Reachable(s: Stream) { exists trace :: s == Run(trace) }

  lemma ReachableOk(s: Stream)
    requires Reachable(s)
    ensures Inv(s)
  {
    var trace :| s == Run(trace);
    RunKeepsInv(trace);
  }

  lemma ReachableStep(s: Stream, op: Op)
    requires Reachable(s)
    ensures Reachable(Step(s, op))
  {
    var trace :| s == Run(trace);
    assert (trace + [op])[..|trace|] == trace;
    assert Step(s, op) == Run(trace + [op]);
  }

  lemma LogNum(s: Stream, i: nat)
    requires LogOk(s) && i < |s.log| <= MAX_INT
    ensures Num(s.log[i]) == i + 1
  {
    ItoaRoundTrip(i + 1);
  }

  lemma SentNums(s: Stream, k: nat)
    requires Inv(s) && |s.log| <= MAX_INT && k < |s.chans|
    ensures forall i :: 0 <= i < |s.chans[k].sent| ==> Num(s.chans[k].sent[i]) == s.chans[k].pos[i] + 1
  {
    var c := s.chans[k];
    forall i | 0 <= i < |c.sent| ensures Num(c.sent[i]) == c.pos[i] + 1 {
      LogNum(s, c.pos[i]);
    }
  }

  /** Log events with strictly increasing ids, all after the position where delivery starts. */
  ghost predicate IdsRise(c: Chan, log: seq<Event>) {
    && (forall i :: 0 <= i < |c.sent| ==> c.from < Num(c.sent[i]) <= |log| && c.sent[i] == log[Num(c.sent[i]) - 1])
    && (forall i, j :: 0 <= i < j < |c.sent| ==> Num(c.sent[i]) < Num(c.sent[j]))
  }

  /**
   With nothing missed, the log from where delivery starts; all of it up to when the subscriber
   was removed, if it was.
   */
  ghost predicate WholeUnlessMissed(c: Chan, log: seq<Event>) {
    && c.from + |c.sent| <= |log|
    && (c.missed == 0 ==> c.sent == log[c.from..c.from + |c.sent|])
    && (!c.quit ==> (c.sent == log[c.from..] <==> c.missed == 0))
  }

  lemma NumsRise(c: Chan, log: seq<Event>)
    requires Delivered(c, log) && forall i :: 0 <= i < |c.sent| ==> Num(c.sent[i]) == c.pos[i] + 1
    ensures IdsRise(c, log)
  {
  }

  lemma DeliveredWhole(c: Chan, log: seq<Event>, done: bool)
    requires ChanOk(c, log, done)
    ensures WholeUnlessMissed(c, log)
  {
    if c.missed == 0 {
      forall i | 0 <= i < |c.sent| ensures c.sent[i] == log[c.from + i] {
        assert c.pos[i] == c.from + i;
      }
    }
  }

  /**
   What a subscriber gets are log events with strictly increasing ids, all after the
   position where its delivery starts; and until it leaves it has the whole log from there
   on iff no fan-out send found its channel full.
   */
  lemma DeliveryIsSubsequence(s: Stream, k: nat)
    requires Reachable(s) && |s.log| <= MAX_INT && k < |s.chans|
    ensures IdsRise(s.chans[k], s.log) && WholeUnlessMissed(s.chans[k], s.log)
  {
    ReachableOk(s);
    SentNums(s, k);
    NumsRise(s.chans[k], s.log);
    DeliveredWhole(s.chans[k], s.log, s.done);
  }

  lemma LastOf(pos: seq<nat>, i: nat, n: nat)
    requires i < |pos| && pos[i] == n - 1
    requires forall a, b :: 0 <= a < b < |pos| ==> pos[a] < pos[b]
    requires forall a :: 0 <= a < |pos| ==> pos[a] < n
    ensures i == |pos| - 1
  {
    assert pos[|pos| - 1] <= pos[i];
  }

  /** No channel carries two completion events, and one that carries it carries nothing after it. */
  lemma CompletionIsLast(s: Stream, k: nat, i: nat)
    requires Reachable(s) && k < |s.chans| && i < |s.chans[k].sent| && s.chans[k].sent[i].kind == "complete"
    ensures s.done && i == |s.chans[k].sent| - 1 && |s.log| > 0 && s.chans[k].sent[i] == s.log[|s.log| - 1]
  {
    ReachableOk(s);
    assert ChanOk(s.chans[k], s.log, s.done);
    assert s.log[s.chans[k].pos[i]].kind == "complete";
    LastOf(s.chans[k].pos, i, |s.log|);
  }

  /**
   A channel is closed exactly when its subscriber is no longer registered, which is so for all
   once the stream is over.
   */
  lemma ClosedIffUnregistered(s: Stream, k: nat)
    requires Reachable(s) && k < |s.chans|
    ensures s.chans[k].closed <==> !s.chans[k].registered
    ensures s.done || s.gone ==> s.chans[k].closed
  {
    ReachableOk(s);
  }

  /** The buffer holds the ids nextID-len .. nextID-1, at most 10000 of them, or 10001 once complete. */
  lemma BufferedIds(s: Stream)
    requires Reachable(s)
    ensures |s.events| <= (if s.done then 10_001 else 10_000)
    ensures forall i :: 0 <= i < |s.events| ==>
        s.nextID - |s.events| + i > 0 && s.events[i].id == Itoa(s.nextID - |s.events| + i)
  {
    ReachableOk(s);
  }

  /** Nothing leaves the buffer before there are more than 10000 events. */
  lemma BufferIsLong(s: Stream)
    requires BufferOk(s) && !s.gone
    ensures |s.log| <= 10_000 ==> s.events == s.log
    ensures |s.log| > 10_000 ==> |s.events| >= 10_000
  {
  }

  lemma BufferNums(s: Stream)
    requires Inv(s) && |s.log| <= MAX_INT
    ensures forall i :: 0 <= i < |s.events| ==> Num(s.events[i]) == s.nextID - |s.events| + i
  {
    forall i | 0 <= i < |s.events| ensures Num(s.events[i]) == s.nextID - |s.events| + i {
      LogNum(s, |s.log| - |s.events| + i);
    }
  }

  /** Replay after an integer Last-Event-ID is exactly the buffered events with a greater id. */
  lemma ReplayIsExact(s: Stream, lastEventID: string)
    requires Reachable(s) && |s.log| <= MAX_INT
    requires lastEventID != "" && Atoi(lastEventID).ok
    ensures forall i :: 0 <= i < |s.events| ==>
        (Num(s.events[i]) > Atoi(lastEventID).value <==> i >= ReplayFrom(s.events, lastEventID))
  {
    ReachableOk(s);
    BufferNums(s);
    FirstAboveMeaning(s.events, Atoi(lastEventID).value, s.nextID - |s.events|);
  }
}
