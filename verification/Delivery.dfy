/** From a stream to a client over a connection that may break, and back again. */
module Delivery {
  import opened Decimal
  import opened StreamSpec
  import opened StreamRuns
  import opened StreamResume
  import opened StreamManager
  import opened Sse

  // ----- The handler -----

  /** The response body; `items` is what the written text says. */
  class Response {
    var text: string
    ghost var items: seq<Item>

    ghost predicate Valid()
      reads this
    {
      text == PrintAll(items)
    }

    constructor ()
      ensures Valid() && items == []
    {
      text, items := "", [];
    }

    method WriteSSEEvent(event: Event)
      requires Valid()
      modifies this
      ensures Valid() && items == old(items) + [Message(event)]
      ensures text == old(text) + "id: " + event.id + "\nevent: " + event.kind + "\ndata: " + event.data + "\n\n"
    {
      text := text + ("id: " + event.id + "\nevent: " + event.kind + "\ndata: " + event.data + "\n\n");
      items := items + [Message(event)];
      PrintMessage(event);
      assert items[..|items| - 1] == old(items);
    }

    method WriteKeepalive()
      requires Valid()
      modifies this
      ensures Valid() && items == old(items) + [Keepalive]
      ensures text == old(text) + ": keepalive\n\n"
    {
      text := text + ": keepalive\n\n";
      items := items + [Keepalive];
      assert [": keepalive"][1..] == [] && Print(Keepalive) == ": keepalive\n\n";
      assert items[..|items| - 1] == old(items);
    }
  }

  lemma PrintMessage(e: Event)
    ensures Print(Message(e)) == "id: " + e.id + "\nevent: " + e.kind + "\ndata: " + e.data + "\n\n"
  {
    var a, b, c := "id: " + e.id, "event: " + e.kind, "data: " + e.data;
    assert [a, b, c][1..] == [b, c] && [b, c][1..] == [c] && [c][1..] == [];
    assert Join([c]) == c + "\n";
    assert Join([b, c]) == b + "\n" + (c + "\n");
    assert Join([a, b, c]) == a + "\n" + (b + "\n" + (c + "\n"));
  }

  /**
   What the select of the handler's loop finds ready: the client's disconnection, the keepalive
   tick, or the channel.
   */
  datatype Signal = ClientGone | Tick | Channel

  datatype Outcome = NeverSubscribed | Left | Finished | StillServing

  /**
   Stands for whatever other goroutines do to the stream in between. Callers know only its
   contract, which any calls meet (StreamResume.LaterGrows, StreamResume.LaterKeepsClosed),
   as only the handler receives from its own channel.
   */
  method OthersRun(es: ExecutionStream, ghost k: nat)
    requires es.Valid() && k < |es.state.chans|
    modifies es, es.known
    ensures es.Valid() && old(es.known) <= es.known
    ensures forall i :: 0 <= i < |es.known| ==> es.known[i] in old(es.known) || fresh(es.known[i])
    ensures Grew(old(es.state), es.state) && es.state.chans[k].taken == old(es.state.chans[k].taken)
    ensures old(es.state.chans[k].closed) ==> es.state.chans[k] == old(es.state.chans[k])
  {
  }

  lemma OneMore(items: seq<Item>, item: Item)
    ensures Messages(items + [item]) == Messages(items) + Carried(item)
  {
    assert (items + [item])[..|items|] == items;
  }

  /** The response holds what the client of the k-th subscriber took out of its channel. */
  ghost predicate Serving(es: ExecutionStream, sub: Subscriber, k: nat, response: Response)
    reads es, es.known, response
  {
    && es.Valid() && response.Valid()
    && k < |es.known| && es.known[k] == sub && |es.state.chans| == |es.known|
    && Messages(response.items) == TakenFrom(es.state.chans[k])
  }

  ghost function TakenFrom(c: Chan): seq<Event> {
    if c.taken <= |c.sent| then c.sent[..c.taken] else []
  }

  lemma ChanOfSub(es: ExecutionStream, k: nat)
    requires es.Valid() && k < |es.known|
    ensures |es.state.chans| == |es.known|
    ensures var c := es.state.chans[k];
      && c == es.known[k].View(es.known[k] in es.subscribers)
      && TakenFrom(c) == es.known[k].received && c.closed == es.known[k].closed
      && c.taken <= |c.sent| && c.sent[c.taken..] == es.known[k].queue
    ensures es.known[k].queue == [] ==> es.state.chans[k].sent == es.known[k].received
  {
    assert es.state.chans[k] == es.View().chans[k];
  }

  lemma StillTaken(s: Stream, t: Stream, k: nat)
    requires Grew(s, t) && k < |s.chans| && s.chans[k].taken == t.chans[k].taken <= |s.chans[k].sent|
    ensures TakenFrom(t.chans[k]) == TakenFrom(s.chans[k])
  {
    assert ChanGrew(s.chans[k], t.chans[k]);
  }

  lemma ReceiveTakes(s: Stream, k: nat)
    requires k < |s.chans| && s.chans[k].taken < |s.chans[k].sent|
    ensures |Step(s, Receive(k)).chans| == |s.chans|
    ensures Step(s, Receive(k)).chans[k] == s.chans[k].(taken := s.chans[k].taken + 1)
  {
  }

  /** One event from the channel to the response. */
  method ServeOne(es: ExecutionStream, sub: Subscriber, ghost k: nat, response: Response)
    requires Serving(es, sub, k, response) && |sub.queue| > 0
    modifies es, sub, response
    ensures Serving(es, sub, k, response) && es.known == old(es.known)
    ensures var c := old(es.state.chans[k]);
      && c.taken < |c.sent| && es.state.chans[k] == c.(taken := c.taken + 1)
      && response.items == old(response.items) + [Message(c.sent[c.taken])]
  {
    ChanOfSub(es, k);
    ReceiveTakes(es.state, k);
    ghost var c := es.state.chans[k];
    assert sub.queue[0] == c.sent[c.taken..][0];
    var e := es.ClientReceives(sub, k);
    ChanOfSub(es, k);
    OneMore(response.items, Message(e.value));
    response.WriteSSEEvent(e.value);
  }

  /** What a turn writes, when the channel, of which `taken` events were taken before, is `c` afterwards. */
  function Written(signal: Signal, c: Chan, taken: nat): seq<Item> {
    match signal
    case ClientGone => []
    case Tick => [Keepalive]
    case Channel => if taken < |c.sent| then [Message(c.sent[taken])] else []
  }

  function OutcomeOf(signal: Signal, c: Chan, taken: nat): Outcome {
    match signal
    case ClientGone => Left
    case Tick => StillServing
    case Channel => if taken == |c.sent| && c.closed then Finished else StillServing
  }

  /** One turn, which found the channel `c` and left it as `d`, or whatever others made of it in between. */
  predicate Turned(signal: Signal, c: Chan, d: Chan, before: seq<Item>, after: seq<Item>, outcome: Outcome) {
    && c.sent <= d.sent && (c.closed ==> d.closed && d.sent == c.sent)
    && d.taken == c.taken + (if signal == Channel && c.taken < |d.sent| then 1 else 0) <= |d.sent|
    && outcome == OutcomeOf(signal, d, c.taken)
    && after == before + Written(signal, d, c.taken)
  }

  /**
   One turn of the handler's loop, after whatever else happened. The channel's next event is
   written if there is one; the loop ends there if there is none and the channel is closed.
   */
  method Turn(es: ExecutionStream, sub: Subscriber, ghost k: nat, response: Response, signal: Signal)
      returns (outcome: Outcome)
    requires Serving(es, sub, k, response)
    modifies es, es.known, response
    ensures Serving(es, sub, k, response)
    ensures forall i :: 0 <= i < |es.known| ==> es.known[i] in old(es.known) || fresh(es.known[i])
    ensures Turned(signal, old(es.state.chans[k]), es.state.chans[k], old(response.items), response.items, outcome)
  {
    Meanwhile(es, sub, k, response);
    outcome := React(es, sub, k, response, signal);
  }

  /** What the select does about what it found ready. */
  method React(es: ExecutionStream, sub: Subscriber, ghost k: nat, response: Response, signal: Signal)
      returns (outcome: Outcome)
    requires Serving(es, sub, k, response)
    modifies es, sub, response
    ensures Serving(es, sub, k, response) && es.known == old(es.known)
    ensures var c, d := old(es.state.chans[k]), es.state.chans[k];
      && d == c.(taken := d.taken)
      && Turned(signal, c, d, old(response.items), response.items, outcome)
  {
    outcome := StillServing;
    ChanOfSub(es, k);
    if signal == ClientGone {
      outcome := Left;
    } else if signal == Tick {
      OneMore(response.items, Keepalive);
      response.WriteKeepalive();
    } else if |sub.queue| > 0 {
      ServeOne(es, sub, k, response);
    } else if sub.closed {
      outcome := Finished;
    }
  }

  method Meanwhile(es: ExecutionStream, sub: Subscriber, ghost k: nat, response: Response)
    requires Serving(es, sub, k, response)
    modifies es, es.known
    ensures Serving(es, sub, k, response)
    ensures forall i :: 0 <= i < |es.known| ==> es.known[i] in old(es.known) || fresh(es.known[i])
    ensures es.state.chans[k].taken == old(es.state.chans[k].taken)
    ensures var c, d := old(es.state.chans[k]), es.state.chans[k];
      c.sent <= d.sent && (c.closed ==> d.closed && d.sent == c.sent)
  {
    ghost var before := es.state;
    ChanOfSub(es, k);
    OthersRun(es, k);
    assert ChanGrew(before.chans[k], es.state.chans[k]);
    ChanOfSub(es, k);
    StillTaken(before, es.state, k);
  }

  /** The channel of a client that subscribes now, if it is served. */
  function NewChan(s: Stream, lastEventID: string): Chan {
    Joined(s, s.events[ReplayFrom(s.events, lastEventID)..])
  }

  method Connect(es: ExecutionStream, lastEventID: string, response: Response) returns (sub: Subscriber?)
    requires es.Valid() && !es.gone && response.Valid() && response.items == []
    modifies es
    ensures sub == null <==> old(es.locked) || Blocks(old(es.state), lastEventID)
    ensures sub == null ==> es.Valid()
    ensures sub != null ==>
      && fresh(sub) && es.known == old(es.known) + [sub] && Serving(es, sub, |old(es.known)|, response)
      && es.state.chans[|old(es.known)|] == NewChan(old(es.state), lastEventID)
  {
    sub := es.Subscribe(lastEventID);
    if sub != null {
      ChanOfSub(es, |es.known| - 1);
    }
  }

  /** The deferred call of the unsubscribe function. */
  method Disconnect(es: ExecutionStream, sub: Subscriber, ghost k: nat, response: Response)
    requires Serving(es, sub, k, response)
    modifies es, sub
    ensures Serving(es, sub, k, response) && es.known == old(es.known)
    ensures var c, d := old(es.state.chans[k]), es.state.chans[k];
      d.sent == c.sent && d.taken == c.taken && (c.closed ==> d.closed) && (d.closed || es.state.stuck)
  {
    ChanOfSub(es, k);
    UnsubscribeCloses(es.state, k);
    ghost var before := es.state;
    var returned := es.Unsubscribe(sub, k);
    ChanOfSub(es, k);
    assert es.state == Step(before, Unsubscribe(k));
    hide Step;
  }

  lemma UnsubscribeCloses(s: Stream, k: nat)
    requires Reachable(s) && k < |s.chans|
    ensures var t := Step(s, Unsubscribe(k));
      && |t.chans| == |s.chans| && (t.chans[k].closed || t.stuck)
      && t.chans[k].sent == s.chans[k].sent && t.chans[k].taken == s.chans[k].taken
      && (s.chans[k].closed ==> t.chans[k].closed)
  {
    ReachableOk(s);
    assert ChanOk(s.chans[k], s.log, s.done);
  }

  function Count(signals: seq<Signal>, signal: Signal): nat {
    if |signals| == 0 then 0
    else Count(signals[..|signals| - 1], signal) + if signals[|signals| - 1] == signal then 1 else 0
  }

  function Keepalives(items: seq<Item>): nat {
    if |items| == 0 then 0 else Keepalives(items[..|items| - 1]) + if items[|items| - 1] == Keepalive then 1 else 0
  }

  /**
   What came of the first `n` signals, when the channel was `first` at the beginning and is
   `c` now: a keepalive for each tick; what was in the channel at the beginning, and the
   loop's end, are not put off; and a channel that was closed is served to its end.
   */
  ghost predicate Served(signals: seq<Signal>, n: nat, first: Chan, c: Chan, items: seq<Item>, outcome: Outcome) {
    && n <= |signals| && (outcome == StillServing ==> ClientGone !in signals[..n])
    && (outcome == Left ==> n > 0 && signals[n - 1] == ClientGone)
    && (outcome == Finished ==> n > 0 && signals[n - 1] == Channel && c.closed && c.taken == |c.sent|)
    && Keepalives(items) == Count(signals[..n], Tick)
    && first.sent <= c.sent && c.taken <= |c.sent|
    && MinNat(Count(signals[..n], Channel), |first.sent|) <= c.taken
    && (first.closed ==>
         && c.closed && c.sent == first.sent && c.taken == MinNat(Count(signals[..n], Channel), |c.sent|)
         && (outcome == Finished <==> Count(signals[..n], Channel) > |c.sent|))
  }

  lemma OneMoreKeepalive(items: seq<Item>, more: seq<Item>)
    requires |more| <= 1
    ensures Keepalives(items + more) == Keepalives(items) + if more == [Keepalive] then 1 else 0
  {
    if more == [] { assert items + more == items; } else { assert (items + more)[..|items|] == items; }
  }

  lemma OneMoreTurn(signals: seq<Signal>, n: nat, first: Chan, c: Chan, d: Chan, before: seq<Item>, after: seq<Item>,
                    outcome: Outcome)
    requires n < |signals| && Served(signals, n, first, c, before, StillServing)
    requires Turned(signals[n], c, d, before, after, outcome)
    ensures Served(signals, n + 1, first, d, after, outcome)
  {
    assert signals[..n + 1] == signals[..n] + [signals[n]] && signals[..n + 1][..n] == signals[..n];
    OneMoreKeepalive(before, Written(signals[n], d, c.taken));
  }

  /** The handler's loop. */
  method Serve(es: ExecutionStream, sub: Subscriber, ghost k: nat, signals: seq<Signal>, response: Response)
      returns (outcome: Outcome, ghost used: nat)
    requires Serving(es, sub, k, response) && response.items == []
    modifies es, es.known, response
    ensures Serving(es, sub, k, response)
    ensures forall j :: 0 <= j < |es.known| ==> es.known[j] in old(es.known) || fresh(es.known[j])
    ensures outcome != NeverSubscribed && (outcome == StillServing ==> used == |signals|)
    ensures Served(signals, used, old(es.state.chans[k]), es.state.chans[k], response.items, outcome)
  {
    outcome := StillServing;
    var i := 0;
    ghost var first := es.state.chans[k];
    ChanOfSub(es, k);
    assert Messages(response.items) == [];
    assert Served(signals, 0, first, es.state.chans[k], response.items, outcome);
    hide Served, Turned, TakenFrom, Messages, Serving;
    while i < |signals| && outcome == StillServing
      invariant Serving(es, sub, k, response)
      invariant forall j :: 0 <= j < |es.known| ==> es.known[j] in old(es.known) || fresh(es.known[j])
      invariant outcome != NeverSubscribed
      invariant i <= |signals| && Served(signals, i, first, es.state.chans[k], response.items, outcome)
    {
      ghost var c, items := es.state.chans[k], response.items;
      outcome := Turn(es, sub, k, response, signals[i]);
      OneMoreTurn(signals, i, first, c, es.state.chans[k], items, response.items, outcome);
      i := i + 1;
    }
    used := i;
  }

  /**
   Serves one client, whatever the select finds and whatever happens to the stream in
   between. What was written is the first part of what was put in the client's channel,
   and all of it when the handler stops because the channel is closed. It goes on until
   the client leaves or its channel is empty and closed: to a client of a stream that is
   over, it writes all there is, one event at each turn for the channel, and then stops. In
   the end its client is unsubscribed, unless the stream's lock is lost.
   */
  method StreamExecution(es: ExecutionStream, lastEventID: string, signals: seq<Signal>, response: Response)
    returns (outcome: Outcome, ghost used: nat)
    requires es.Valid() && !es.gone && response.Valid() && response.items == []
    modifies es, es.known, response
    ensures es.Valid() && response.Valid()
    ensures outcome == NeverSubscribed <==> old(es.locked) || Blocks(old(es.state), lastEventID)
    ensures outcome == NeverSubscribed ==> response.items == []
    ensures outcome == StillServing ==> used == |signals|
    ensures outcome != NeverSubscribed ==>
      var k := |old(es.known)|;
      && k < |es.state.chans|
      && Messages(response.items) == TakenFrom(es.state.chans[k])
      && (outcome == Finished ==> Messages(response.items) == es.state.chans[k].sent)
      && (outcome != StillServing ==> es.state.stuck || es.state.chans[k].closed)
      && Served(signals, used, NewChan(old(es.state), lastEventID), es.state.chans[k], response.items, outcome)
  {
    ghost var k := |es.known|;
    var sub := Connect(es, lastEventID, response);
    if sub == null {
      return NeverSubscribed, 0;
    }
    outcome, used := Serve(es, sub, k, signals, response);
    if outcome != StillServing {
      Disconnect(es, sub, k, response);
    }
    ChanOfSub(es, k);
  }

  // ----- A broken connection and its successor, end to end -----

  lemma DigitsPlain(n: nat)
    ensures OneLine(Itoa(n)) && '\0' !in Itoa(n)
  {
    assert forall i :: 0 <= i < |Digits(n)| ==> IsDigit(Digits(n)[i]);
  }

  /** Log events print without surprises when their JSON holds no raw line terminator. */
  ghost predicate PlainData(log: seq<Event>) { forall i :: 0 <= i < |log| ==> OneLine(log[i].data) }

  lemma LogPrintable(s: Stream, i: nat)
    requires Inv(s) && PlainData(s.log) && i < |s.log|
    ensures Printable(Message(s.log[i]))
  {
    DigitsPlain(i + 1);
  }

  lemma SentPrintable(s: Stream, k: nat)
    requires Inv(s) && PlainData(s.log) && k < |s.chans|
    ensures forall i :: 0 <= i < |s.chans[k].sent| ==> Printable(Message(s.chans[k].sent[i]))
  {
    forall i | 0 <= i < |s.chans[k].sent|
      ensures Printable(Message(s.chans[k].sent[i]))
    {
      LogPrintable(s, s.chans[k].pos[i]);
    }
  }

  lemma {:induction false} MessagesIn(items: seq<Item>, i: nat) returns (j: nat)
    requires i < |items| && items[i].Message?
    ensures j < |Messages(items)| && Messages(items)[j] == items[i].e
  {
    var front := items[..|items| - 1];
    if i == |items| - 1 {
      j := |Messages(front)|;
    } else {
      j := MessagesIn(front, i);
    }
  }

  lemma ItemsPrintable(items: seq<Item>)
    requires forall j :: 0 <= j < |Messages(items)| ==> Printable(Message(Messages(items)[j]))
    ensures AllPrintable(items)
  {
    forall i | 0 <= i < |items| ensures Printable(items[i]) {
      if items[i].Message? {
        var j := MessagesIn(items, i);
        assert items[i] == Message(Messages(items)[j]);
      }
    }
  }

  lemma HeardTogether(a: seq<Event>, b: seq<Event>)
    ensures HeardAll(a) + HeardAll(b) == HeardAll(a + b)
  {
  }

  /** What the leaving client made of the text it saw, in terms of its channel. */
  lemma SeenPart(s: Stream, k: nat, written: seq<Item>, seen: string) returns (m: nat)
    requires Inv(s) && PlainData(s.log) && k < |s.chans|
    requires Messages(written) <= s.chans[k].sent && seen <= PrintAll(written)
    requires NothingMissing(s.chans[k], |Feed(Fresh(), seen).out|)
    ensures m == |Feed(Fresh(), seen).out| <= |s.chans[k].sent|
    ensures Feed(Fresh(), seen).out == HeardAll(s.chans[k].sent[..m])
    ensures Feed(Fresh(), seen).lastEventID == s.chans[k].sent[m - 1].id
  {
    SentPrintable(s, k);
    m := SeenText(s.chans[k].sent, written, seen);
  }

  lemma SeenText(sent: seq<Event>, written: seq<Item>, seen: string) returns (m: nat)
    requires forall i :: 0 <= i < |sent| ==> Printable(Message(sent[i]))
    requires Messages(written) <= sent && seen <= PrintAll(written) && Feed(Fresh(), seen).out != []
    ensures 0 < m == |Feed(Fresh(), seen).out| <= |sent|
    ensures Feed(Fresh(), seen).out == HeardAll(sent[..m])
    ensures Feed(Fresh(), seen).lastEventID == sent[m - 1].id
  {
    ItemsPrintable(written);
    m := BrokenConnection(written, seen);
    PrefixHeard(Messages(written), sent, m);
  }

  lemma PrefixHeard(short: seq<Event>, long: seq<Event>, m: nat)
    requires m <= |short| && short <= long
    ensures short[..m] == long[..m] && |HeardAll(long[..m])| == m
  {
  }

  lemma HeardChannel(s: Stream, k: nat, items: seq<Item>)
    requires Inv(s) && PlainData(s.log) && k < |s.chans| && Messages(items) == s.chans[k].sent
    ensures Feed(Fresh(), PrintAll(items)).out == HeardAll(s.chans[k].sent)
  {
    SentPrintable(s, k);
    ItemsPrintable(items);
    PrintedEventsAreHeard(items);
  }

  /**
   End to end. A client has missed nothing of what it dispatched when its connection breaks,
   after any number of characters of the text the handler wrote for it; it reconnects with
   the last id it has by the standard; and it reads all that is written then. If the other
   client's channel and the new one were not found full, what it dispatched before and after
   is exactly what a client with an unbroken connection dispatches.
   */
  lemma BrokenConnectionResumes(story: Story, written: seq<Item>, seen: string, rewritten: seq<Item>)
    requires var client := Feed(Fresh(), seen);
      && story.AllServed(client.lastEventID)
      && story.Leaver() < |story.Reconnecting().chans|
    requires var leaver := story.Reconnecting().chans[story.Leaver()];
      && NothingMissing(leaver, |Feed(Fresh(), seen).out|)
      && Messages(written) <= leaver.sent && seen <= PrintAll(written)
    requires var end := story.End(Feed(Fresh(), seen).lastEventID);
      && |end.log| <= MAX_INT && PlainData(end.log)
      && |end.chans| > story.Renewed() > story.Stayer()
      && Uninterrupted(end.chans[story.Stayer()]) && Uninterrupted(end.chans[story.Renewed()])
      && Messages(rewritten) == end.chans[story.Renewed()].sent
    ensures var client := Feed(Fresh(), seen);
      var end := story.End(client.lastEventID);
      client.out + Feed(Fresh(), PrintAll(rewritten)).out == HeardAll(end.chans[story.Stayer()].sent)
  {
    var client := Feed(Fresh(), seen);
    var t1 := BothJoin(story.before, story.header) + story.mid;
    var now, end := story.Reconnecting(), story.End(client.lastEventID);
    RunKeepsInv(t1);
    RunKeepsInv(Reconnect(t1, client.lastEventID) + story.later);
    ChansLast(story, client.lastEventID);
    assert PlainData(now.log);
    var m := SeenPart(now, story.Leaver(), written, seen);
    var part := now.chans[story.Leaver()].sent[..m];
    ResumeIsExactlyOnce(story, m, part[m - 1]);
    HeardChannel(end, story.Renewed(), rewritten);
    HeardTogether(part, end.chans[story.Renewed()].sent);
  }
}
