/**
 What the stream manager does to one execution's stream, as transitions on values.

 A stream is an event log of which the last part is buffered for replay, and the
 subscribers, each behind a channel of 256 slots. Every method of the manager holds the
 stream's lock, so a method is one step.
 */
module StreamSpec {
  import opened Decimal

  const MAX_BUFFERED: nat := 10_000
  const CHANNEL_SLOTS: nat := 256

  datatype Event = Event(id: string, kind: string, data: string)

  /**
   One subscriber's channel with its history: `sent` is everything ever put in it and the
   client has received the first `taken` of those, so the channel holds `sent[taken..]`.
   `registered` is membership in the stream's subscriber set. The rest is history:
   `sent[i]` is the log's event at `pos[i]`; `missed` counts the fan-out sends that found
   the channel full; delivery starts at position `from` of the log, which had length
   `joined` when the subscriber arrived; `quit` says that it was removed before the
   execution completed.
   */
  datatype Chan = Chan(
    sent: seq<Event>,
    taken: nat,
    registered: bool,
    closed: bool,
    pos: seq<nat>,
    missed: nat,
    from: nat,
    joined: nat,
    quit: bool)

  /**
   `stuck` says that a Subscribe call waits forever while it holds the lock; `gone` that
   Cleanup removed the stream, after which its id names a new one. `log` is every event the
   stream ever carried and `chans` every channel it ever handed out, in that order; the
   rest are the fields of the program.
   */
  datatype Stream = Stream(
    events: seq<Event>,
    nextID: nat,
    done: bool,
    stuck: bool,
    gone: bool,
    log: seq<Event>,
    chans: seq<Chan>)

  /** A subscriber is named by its position in `chans`. */
  datatype Op =
    | Subscribe(lastEventID: string)
    | Publish(data: string)
    | Complete(data: string)
    | Unsubscribe(k: nat)
    | Receive(k: nat)
    | Cleanup

  function Init(): Stream { Stream([], 1, false, false, false, [], []) }

  // ----- Replay -----

  function Num(e: Event): int { Atoi(e.id).value }

  function FirstAbove(events: seq<Event>, id: int): (i: nat)
    ensures i <= |events|
  {
    if |events| == 0 || Num(events[0]) > id then 0 else 1 + FirstAbove(events[1..], id)
  }

  /** Where replay starts in the buffer: at 0 unless the header is an integer. */
  function ReplayFrom(events: seq<Event>, lastEventID: string): (i: nat)
    ensures i <= |events|
  {
    if lastEventID != "" && Atoi(lastEventID).ok then FirstAbove(events, Atoi(lastEventID).value) else 0
  }

  predicate Blocks(s: Stream, lastEventID: string) {
    |s.events| - ReplayFrom(s.events, lastEventID) > CHANNEL_SLOTS
  }

  // ----- Steps -----

  function Trim(events: seq<Event>): seq<Event> {
    if |events| > MAX_BUFFERED then events[|events| - MAX_BUFFERED..] else events
  }

  function MinNat(a: nat, b: nat): nat { if a <= b then a else b }

  /** Channel of a new subscriber that is replayed the last `n` events of the log. */
  function Joined(s: Stream, replay: seq<Event>): Chan {
    var start := |s.log| - MinNat(|replay|, |s.log|);
    Chan(replay, 0, !s.done, s.done, seq(|replay|, i requires 0 <= i => start + i), 0, start, |s.log|, false)
  }

  predicate Full(c: Chan) { |c.sent| - c.taken >= CHANNEL_SLOTS }

  /** A send to a registered subscriber, which gives up when the channel is full. */
  function Offer(c: Chan, e: Event, at: nat): Chan {
    if !c.registered then c
    else if Full(c) then c.(missed := c.missed + 1)
    else c.(sent := c.sent + [e], pos := c.pos + [at])
  }

  function Close(c: Chan, quit: bool): Chan {
    if c.registered then c.(registered := false, closed := true, quit := quit) else c
  }

  function FanOut(chans: seq<Chan>, e: Event, at: nat): seq<Chan> {
    seq(|chans|, i requires 0 <= i < |chans| => Offer(chans[i], e, at))
  }

  function CloseAll(chans: seq<Chan>, quit: bool): seq<Chan> {
    seq(|chans|, i requires 0 <= i < |chans| => Close(chans[i], quit))
  }

  /** No caller can get at this stream's fields: the lock is taken for good, or the id names another stream. */
  predicate Unreachable(s: Stream) { s.stuck || s.gone }

  function JoinStep(s: Stream, replayFrom: nat): Stream
    requires replayFrom <= |s.events|
  {
    if |s.events| - replayFrom > CHANNEL_SLOTS then s.(stuck := true)
    else s.(chans := s.chans + [Joined(s, s.events[replayFrom..])])
  }

  function SubscribeStep(s: Stream, lastEventID: string): Stream {
    if Unreachable(s) then s else JoinStep(s, ReplayFrom(s.events, lastEventID))
  }

  function Append(s: Stream, e: Event): Stream {
    s.(nextID := s.nextID + 1,
       events := s.events + [e],
       log := s.log + [e],
       chans := FanOut(s.chans, e, |s.log|))
  }

  function PublishStep(s: Stream, data: string): Stream {
    if Unreachable(s) || s.done then s
    else
      var t := Append(s, Event(Itoa(s.nextID), "output", data));
      t.(events := Trim(t.events))
  }

  function CompleteStep(s: Stream, data: string): Stream {
    if Unreachable(s) || s.done then s
    else
      var t := Append(s, Event(Itoa(s.nextID), "complete", data));
      t.(done := true, chans := CloseAll(t.chans, false))
  }

  /** The unsubscribe closure keeps its stream even after Cleanup, whose subscriber set is then empty. */
  function UnsubscribeStep(s: Stream, k: nat): Stream {
    if s.stuck || k >= |s.chans| then s
    else s.(chans := s.chans[k := Close(s.chans[k], true)])
  }

  /** The client takes the next event, if there is one; this needs no lock. */
  function ReceiveStep(s: Stream, k: nat): Stream {
    if k >= |s.chans| || s.chans[k].taken >= |s.chans[k].sent| then s
    else s.(chans := s.chans[k := s.chans[k].(taken := s.chans[k].taken + 1)])
  }

  function CleanupStep(s: Stream): Stream {
    if Unreachable(s) then s
    else s.(chans := CloseAll(s.chans, true), events := [], gone := true)
  }

  function Step(s: Stream, op: Op): Stream {
    match op
    case Subscribe(lastEventID) => SubscribeStep(s, lastEventID)
    case Publish(data) => PublishStep(s, data)
    case Complete(data) => CompleteStep(s, data)
    case Unsubscribe(k) => UnsubscribeStep(s, k)
    case Receive(k) => ReceiveStep(s, k)
    case Cleanup => CleanupStep(s)
  }

  function RunFrom(s: Stream, trace: seq<Op>): Stream {
    if |trace| == 0 then s else Step(RunFrom(s, trace[..|trace| - 1]), trace[|trace| - 1])
  }

  function Run(trace: seq<Op>): Stream { RunFrom(Init(), trace) }

  // ----- What every run keeps -----

  ghost predicate LogOk(s: Stream) {
    && s.nextID == |s.log| + 1
    && (forall i :: 0 <= i < |s.log| ==> s.log[i].id == Itoa(i + 1))
    && (forall i :: 0 <= i < |s.log| ==> s.log[i].kind == if s.done && i == |s.log| - 1 then "complete" else "output")
    && (s.done ==> |s.log| > 0)
  }

  function BufferLength(logLength: nat, done: bool): nat {
    if done && logLength > 0 then MinNat(logLength - 1, MAX_BUFFERED) + 1 else MinNat(logLength, MAX_BUFFERED)
  }

  /** The buffer is the newest part of the log: the block of ids nextID-len .. nextID-1. */
  ghost predicate BufferOk(s: Stream) {
    && |s.events| <= |s.log|
    && |s.events| == (if s.gone then 0 else BufferLength(|s.log|, s.done))
    && s.events == s.log[|s.log| - |s.events|..]
  }

  /** Delivered events are log events at strictly increasing positions, none before the start of delivery. */
  ghost predicate Delivered(c: Chan, log: seq<Event>) {
    && |c.pos| == |c.sent|
    && (forall i :: 0 <= i < |c.sent| ==> c.from <= c.pos[i] < |log| && c.sent[i] == log[c.pos[i]])
    && (forall i, j :: 0 <= i < j < |c.pos| ==> c.pos[i] < c.pos[j])
  }

  ghost predicate ChanOk(c: Chan, log: seq<Event>, done: bool) {
    && c.taken <= |c.sent| <= c.taken + CHANNEL_SLOTS
    && c.from <= c.joined <= |log|
    && c.joined - c.from <= |c.sent|
    && c.closed == !c.registered
    && (c.registered ==> !c.quit && !done)
    && (!c.registered && !done ==> c.quit)
    && c.from + |c.sent| + c.missed <= |log|
    && (!c.quit ==> c.from + |c.sent| + c.missed == |log|)
    && Delivered(c, log)
    && (forall i :: 0 <= i < c.joined - c.from ==> c.pos[i] == c.from + i)
    && (c.missed == 0 ==> forall i :: 0 <= i < |c.pos| ==> c.pos[i] == c.from + i)
  }

  ghost predicate Inv(s: Stream) {
    && LogOk(s)
    && BufferOk(s)
    && (forall k :: 0 <= k < |s.chans| ==> ChanOk(s.chans[k], s.log, s.done))
    && (s.gone ==> forall k :: 0 <= k < |s.chans| ==> !s.chans[k].registered)
  }
}
