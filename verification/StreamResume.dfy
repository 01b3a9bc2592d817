/** Reconnecting with Last-Event-ID: what a client ends up with, over every run. */
module StreamResume {
  import opened Decimal
  import opened StreamSpec
  import opened StreamRuns

  // ----- What later steps leave alone -----

  ghost predicate ChanGrew(c: Chan, d: Chan) {
    && c.from == d.from && c.joined == d.joined
    && c.sent <= d.sent && c.taken <= d.taken && c.missed <= d.missed
    && (c.quit ==> d.quit)
  }

  ghost predicate Grew(s: Stream, t: Stream) {
    && s.log <= t.log
    && |s.chans| <= |t.chans|
    && (forall k :: 0 <= k < |s.chans| ==> ChanGrew(s.chans[k], t.chans[k]))
  }

  lemma SubscribeGrows(s: Stream, lastEventID: string)
    ensures Grew(s, SubscribeStep(s, lastEventID))
  {
  }

  lemma OfferGrows(c: Chan, e: Event, at: nat)
    ensures ChanGrew(c, Offer(c, e, at))
  {
  }

  lemma AppendGrows(s: Stream, e: Event)
    ensures Grew(s, Append(s, e))
  {
    forall k | 0 <= k < |s.chans| ensures ChanGrew(s.chans[k], Append(s, e).chans[k]) {
      OfferGrows(s.chans[k], e, |s.log|);
    }
  }

  lemma CloseGrows(c: Chan, quit: bool)
    requires c.registered ==> !c.quit
    ensures ChanGrew(c, Close(c, quit))
  {
  }

  /** Closing every channel takes nothing away. */
  lemma ClosingGrows(s: Stream, t: Stream, u: Stream, quit: bool)
    requires Grew(s, t) && u.log == t.log && u.chans == CloseAll(t.chans, quit)
    requires forall k :: 0 <= k < |t.chans| ==> t.chans[k].registered ==> !t.chans[k].quit
    ensures Grew(s, u)
  {
    forall k | 0 <= k < |s.chans| ensures ChanGrew(s.chans[k], u.chans[k]) {
      assert ChanGrew(s.chans[k], t.chans[k]);
      CloseGrows(t.chans[k], quit);
    }
  }

  lemma CompleteGrows(s: Stream, data: string)
    requires Inv(s)
    ensures Grew(s, CompleteStep(s, data))
  {
    if !Unreachable(s) && !s.done {
      var e := Event(Itoa(s.nextID), "complete", data);
      var t := Append(s, e);
      AppendGrows(s, e);
      forall k | 0 <= k < |t.chans| ensures t.chans[k].registered ==> !t.chans[k].quit {
        assert ChanOk(s.chans[k], s.log, s.done);
      }
      ClosingGrows(s, t, CompleteStep(s, data), false);
    }
  }

  lemma StepGrows(s: Stream, op: Op)
    requires Inv(s)
    ensures Grew(s, Step(s, op))
  {
    match op
    case Subscribe(lastEventID) => SubscribeGrows(s, lastEventID);
    case Publish(data) => if !Unreachable(s) && !s.done { AppendGrows(s, Event(Itoa(s.nextID), "output", data)); }
    case Complete(data) => CompleteGrows(s, data);
    case Unsubscribe(k) => if k < |s.chans| { CloseGrows(s.chans[k], true); }
    case Receive(k) =>
    case Cleanup => if !Unreachable(s) { ClosingGrows(s, s, CleanupStep(s), true); }
  }

  lemma RunSnoc(trace: seq<Op>, op: Op)
    ensures Run(trace + [op]) == Step(Run(trace), op)
  {
    assert (trace + [op])[..|trace|] == trace;
  }

  lemma GrewTransitive(s: Stream, t: Stream, u: Stream)
    requires Grew(s, t) && Grew(t, u)
    ensures Grew(s, u)
  {
    forall k | 0 <= k < |s.chans| ensures ChanGrew(s.chans[k], u.chans[k]) {
      assert ChanGrew(s.chans[k], t.chans[k]) && ChanGrew(t.chans[k], u.chans[k]);
    }
  }

  /** The log only grows, what was delivered stays delivered, and where a delivery starts never changes. */
  lemma {:induction false} LaterGrows(before: seq<Op>, later: seq<Op>)
    ensures Grew(Run(before), Run(before + later))
  {
    if |later| == 0 {
      assert before + later == before;
    } else {
      var mid := before + later[..|later| - 1];
      var op := later[|later| - 1];
      assert before + later == mid + [op];
      LaterGrows(before, later[..|later| - 1]);
      RunKeepsInv(mid);
      StepGrows(Run(mid), op);
      RunSnoc(mid, op);
      GrewTransitive(Run(before), Run(mid), Run(mid + [op]));
    }
  }

  // ----- Exactly-once resume -----

  /** Never found full, and still there when the stream ends (or now). */
  predicate Uninterrupted(c: Chan) { c.missed == 0 && !c.quit }

  /** The first `m` events put in the channel are the first `m` of its part of the log. */
  predicate NothingMissing(c: Chan, m: nat) {
    0 < m <= |c.sent| && m <= |c.pos| && c.pos[m - 1] == c.from + m - 1
  }

  lemma {:induction false} Consecutive(pos: seq<nat>, from: nat, m: nat)
    requires 0 < m <= |pos| && pos[m - 1] == from + m - 1
    requires forall i :: 0 <= i < |pos| ==> from <= pos[i]
    requires forall i, j :: 0 <= i < j < |pos| ==> pos[i] < pos[j]
    ensures forall i :: 0 <= i < m ==> pos[i] == from + i
  {
    if m > 1 {
      assert pos[m - 2] < pos[m - 1];
      AtLeast(pos, from, m - 2);
      Consecutive(pos, from, m - 1);
    }
  }

  lemma {:induction false} AtLeast(pos: seq<nat>, from: nat, i: nat)
    requires i < |pos|
    requires forall i :: 0 <= i < |pos| ==> from <= pos[i]
    requires forall i, j :: 0 <= i < j < |pos| ==> pos[i] < pos[j]
    ensures pos[i] >= from + i
  {
    if i > 0 { AtLeast(pos, from, i - 1); }
  }

  lemma FirstPart(s: Stream, k: nat, m: nat)
    requires Inv(s) && k < |s.chans| && NothingMissing(s.chans[k], m)
    ensures s.chans[k].from + m <= |s.log| && s.chans[k].sent[..m] == s.log[s.chans[k].from..s.chans[k].from + m]
  {
    var c := s.chans[k];
    assert ChanOk(c, s.log, s.done);
    Consecutive(c.pos, c.from, m);
  }

  /**
   A client that has seen the events up to number `n` and reconnects with that id is
   served iff it is owed at most 256 events. Otherwise the call never returns and the
   stream is wedged.
   */
  lemma ReconnectionServedIff(s: Stream, n: nat)
    requires Reachable(s) && !Unreachable(s) && 0 < n <= |s.log| <= MAX_INT
    ensures var t := SubscribeStep(s, Itoa(n));
      && (|t.chans| == |s.chans| + 1 <==> |s.log| - n <= CHANNEL_SLOTS)
      && (t.stuck <==> |s.log| - n > CHANNEL_SLOTS)
  {
    ReachableOk(s);
    ItoaRoundTrip(n);
    BufferNums(s);
    FirstAboveMeaning(s.events, n, s.nextID - |s.events|);
  }

  /**
   If it is served, no event has left the buffer that it has not seen: a buffer that was trimmed
   is longer than a channel.
   */
  lemma ResumeStart(s: Stream, n: nat)
    requires Inv(s) && 0 < n <= |s.log| <= MAX_INT
    requires var t := SubscribeStep(s, Itoa(n)); |t.chans| == |s.chans| + 1
    ensures n >= |s.log| - |s.events| && SubscribeStep(s, Itoa(n)).chans[|s.chans|].from == n
  {
    ItoaRoundTrip(n);
    BufferNums(s);
    FirstAboveMeaning(s.events, n, s.nextID - |s.events|);
  }

  lemma WholeTail(s: Stream, k: nat)
    requires Inv(s) && k < |s.chans| && Uninterrupted(s.chans[k])
    ensures s.chans[k].from <= |s.log| && s.chans[k].sent == s.log[s.chans[k].from..]
  {
    assert ChanOk(s.chans[k], s.log, s.done);
  }

  lemma PiecesMeet(log: seq<Event>, a: nat, n: nat)
    requires a <= n <= |log|
    ensures log[a..n] + log[n..] == log[a..]
  {
  }

  lemma SameSlice(short: seq<Event>, long: seq<Event>, a: nat, b: nat)
    requires short <= long && a <= b <= |short|
    ensures short[a..b] == long[a..b]
  {
  }

  /** The reconnecting client's part of the log, then the new subscription's. */
  lemma ResumeCore(s1: Stream, k1: nat, m: nat, s2: Stream, k0: nat, k2: nat)
    requires Inv(s1) && Inv(s2) && s1.log <= s2.log
    requires k1 < |s1.chans| && NothingMissing(s1.chans[k1], m)
    requires k0 < |s2.chans| && Uninterrupted(s2.chans[k0]) && s2.chans[k0].from == s1.chans[k1].from
    requires k2 < |s2.chans| && Uninterrupted(s2.chans[k2]) && s2.chans[k2].from == s1.chans[k1].from + m
    ensures s1.chans[k1].sent[..m] + s2.chans[k2].sent == s2.chans[k0].sent
  {
    var from := s1.chans[k1].from;
    FirstPart(s1, k1, m);
    WholeTail(s2, k0);
    WholeTail(s2, k2);
    SameSlice(s1.log, s2.log, from, from + m);
    PiecesMeet(s2.log, from, from + m);
  }

  function BothJoin(before: seq<Op>, header: string): seq<Op> {
    before + [Subscribe(header), Subscribe(header)]
  }

  function Reconnect(before: seq<Op>, id: string): seq<Op> {
    before + [Subscribe(id)]
  }

  /**
   After the calls `before`, two clients subscribe with the same header; after the calls
   `mid`, one of them reconnects with some Last-Event-ID; then come the calls `later`.
   */
  datatype Story = Story(before: seq<Op>, header: string, mid: seq<Op>, later: seq<Op>) {
    function Stayer(): nat { |Run(before).chans| }

    function Leaver(): nat { Stayer() + 1 }

    function Reconnecting(): Stream { Run(BothJoin(before, header) + mid) }

    function Renewed(): nat { |Reconnecting().chans| }

    function End(lastEventID: string): Stream {
      Run(Reconnect(BothJoin(before, header) + mid, lastEventID) + later)
    }

    /** Both first subscriptions and the renewed one get a channel. */
    predicate AllServed(lastEventID: string) {
      && |Run(BothJoin(before, header)).chans| == Leaver() + 1
      && |Run(Reconnect(BothJoin(before, header) + mid, lastEventID)).chans| == Renewed() + 1
    }
  }

  lemma ChansLast(story: Story, lastEventID: string)
    requires story.AllServed(lastEventID)
    ensures story.Leaver() < |story.Reconnecting().chans|
    ensures |story.End(lastEventID).chans| > story.Renewed()
    ensures story.Reconnecting().chans[story.Leaver()].from == story.End(lastEventID).chans[story.Stayer()].from
    ensures story.Reconnecting().log <= story.End(lastEventID).log
    ensures story.End(lastEventID).chans[story.Renewed()].from
      == Run(Reconnect(BothJoin(story.before, story.header) + story.mid, lastEventID)).chans[story.Renewed()].from
  {
    var t0 := BothJoin(story.before, story.header);
    var t1 := t0 + story.mid;
    var t2 := Reconnect(t1, lastEventID);
    TwoJoin(story.before, story.header);
    LaterGrows(t0, story.mid);
    LaterGrows(t1, [Subscribe(lastEventID)]);
    LaterGrows(t2, story.later);
    var k := story.Stayer();
    assert ChanGrew(Run(t0).chans[k], Run(t1).chans[k]) && ChanGrew(Run(t1).chans[k], Run(t2).chans[k]);
    assert ChanGrew(Run(t0).chans[k + 1], Run(t1).chans[k + 1]);
  }

  /**
   The client that leaves has seen `m` events with none missing, and reconnects with the
   id of the last of them, whenever its old subscription is removed. If it is served, and
   the other and the renewed subscription find no full channel, then the first client's
   two parts together are what the other one got: no loss and no duplicate, for any calls
   in between and however the buffer was trimmed.
   */
  lemma ResumeIsExactlyOnce(story: Story, m: nat, last: Event)
    requires story.AllServed(last.id)
    requires story.Leaver() < |story.Reconnecting().chans|
      && NothingMissing(story.Reconnecting().chans[story.Leaver()], m)
      && story.Reconnecting().chans[story.Leaver()].sent[m - 1] == last
    requires var end := story.End(last.id);
      && |end.log| <= MAX_INT
      && |end.chans| > story.Renewed() > story.Stayer()
      && Uninterrupted(end.chans[story.Stayer()]) && Uninterrupted(end.chans[story.Renewed()])
    ensures var now, end := story.Reconnecting(), story.End(last.id);
      now.chans[story.Leaver()].sent[..m] + end.chans[story.Renewed()].sent == end.chans[story.Stayer()].sent
  {
    var t1 := BothJoin(story.before, story.header) + story.mid;
    var t2 := Reconnect(t1, last.id);
    RunKeepsInv(t1);
    RunKeepsInv(t2 + story.later);
    ChansLast(story, last.id);
    ReconnectStart(t1, story.Leaver(), m);
    ResumeCore(Run(t1), story.Leaver(), m, story.End(last.id), story.Stayer(), story.Renewed());
  }

  lemma ReconnectStart(t1: seq<Op>, k: nat, m: nat)
    requires var s1 := Run(t1);
      && k < |s1.chans| && NothingMissing(s1.chans[k], m) && |s1.log| <= MAX_INT
      && |Run(Reconnect(t1, s1.chans[k].sent[m - 1].id)).chans| == |s1.chans| + 1
    ensures var s1 := Run(t1);
      Run(Reconnect(t1, s1.chans[k].sent[m - 1].id)).chans[|s1.chans|].from == s1.chans[k].from + m
  {
    var s1 := Run(t1);
    var n := s1.chans[k].from + m;
    RunKeepsInv(t1);
    FirstPart(s1, k, m);
    assert s1.chans[k].sent[m - 1] == s1.chans[k].sent[..m][m - 1] == s1.log[n - 1];
    RunSnoc(t1, Subscribe(Itoa(n)));
    ResumeStart(s1, n);
  }

  lemma TwoJoin(before: seq<Op>, header: string)
    requires |Run(BothJoin(before, header)).chans| == |Run(before).chans| + 2
    ensures var s := Run(BothJoin(before, header));
      s.chans[|Run(before).chans|].from == s.chans[|Run(before).chans| + 1].from
  {
    RunSnoc(before, Subscribe(header));
    RunSnoc(before + [Subscribe(header)], Subscribe(header));
    assert before + [Subscribe(header)] + [Subscribe(header)] == BothJoin(before, header);
  }

  // ----- What a new client is given -----

  /** Where in the log the replay starts: with the oldest buffered event, or after the last one the client has. */
  function ReplayStart(s: Stream, header: string): int {
    var oldest := |s.log| - |s.events|;
    if header == "" || !Atoi(header).ok || Atoi(header).value < oldest then oldest
    else if Atoi(header).value < |s.log| then Atoi(header).value
    else |s.log|
  }

  /**
   A client that subscribes is owed the log from there on: all that is buffered, if it has no
   Last-Event-ID or one that is not a number. If that is no more than a channel holds, it
   finds exactly that in its channel, which is closed if the stream is over; otherwise the
   call takes the stream's lock for ever. Nothing else changes.
   */
  lemma NewClientIsOwed(s: Stream, header: string)
    requires Reachable(s) && !Unreachable(s) && |s.log| <= MAX_INT
    ensures var from, t := ReplayStart(s, header), SubscribeStep(s, header);
      && 0 <= from <= |s.log|
      && if |s.log| - from > 256 then t == s.(stuck := true)
         else
           && |t.chans| == |s.chans| + 1 && t == s.(chans := s.chans + [t.chans[|s.chans|]])
           && var c := t.chans[|s.chans|];
              && c.sent == s.log[from..] && c.from == from && c.taken == 0 && c.missed == 0
              && c.closed == s.done && c.registered == !s.done
  {
    ReachableOk(s);
    ScanFindsStart(s, header);
    SuffixOfSuffix(s.log, |s.log| - |s.events|, ReplayFrom(s.events, header));
    hide ReplayFrom, ReplayStart, Inv;
  }

  lemma ScanFindsStart(s: Stream, header: string)
    requires Inv(s) && |s.log| <= MAX_INT
    ensures ReplayStart(s, header) == |s.log| - |s.events| + ReplayFrom(s.events, header)
  {
    BufferNums(s);
    if header != "" && Atoi(header).ok {
      FirstAboveMeaning(s.events, Atoi(header).value, s.nextID - |s.events|);
    }
  }

  /** So a first client of a stream that has not been trimmed finds the whole log, unless that is too long. */
  lemma FirstClientSeesAll(s: Stream)
    requires Reachable(s) && !Unreachable(s) && |s.log| <= 256
    ensures var t := SubscribeStep(s, ""); |t.chans| == |s.chans| + 1 && t.chans[|s.chans|].sent == s.log
  {
    ReachableOk(s);
    BufferIsLong(s);
    NewClientIsOwed(s, "");
  }

  /** A client that has unsubscribed finds its channel closed and is sent nothing more. */
  lemma UnsubscribedIsLeftAlone(before: seq<Op>, later: seq<Op>, k: nat)
    requires !Run(before).stuck && k < |Run(before).chans| && Receive(k) !in later
    ensures var s, t := Run(before), Run(before + [Unsubscribe(k)] + later);
      && k < |t.chans| && t.chans[k].closed
      && t.chans[k].sent == s.chans[k].sent && t.chans[k].taken == s.chans[k].taken
  {
    RunKeepsInv(before);
    RunSnoc(before, Unsubscribe(k));
    assert ChanOk(Run(before).chans[k], Run(before).log, Run(before).done);
    LaterKeepsClosed(before + [Unsubscribe(k)], later, k);
  }

  // ----- A Last-Event-ID ahead of the stream -----

  /** The first event put in a channel is the one its delivery starts with: an empty channel has a free slot. */
  predicate StartsAtFirst(c: Chan) {
    if c.sent == [] then c.missed == 0 else |c.pos| > 0 && c.pos[0] == c.from
  }

  ghost predicate AllStartAtFirst(s: Stream) {
    forall k :: 0 <= k < |s.chans| ==> StartsAtFirst(s.chans[k])
  }

  lemma OfferStartsAtFirst(c: Chan, log: seq<Event>, e: Event)
    requires ChanOk(c, log, false) && StartsAtFirst(c)
    ensures StartsAtFirst(Offer(c, e, |log|))
  {
  }

  lemma AppendStartsAtFirst(s: Stream, e: Event)
    requires Inv(s) && !s.done && AllStartAtFirst(s)
    ensures AllStartAtFirst(Append(s, e))
  {
    forall k | 0 <= k < |s.chans| ensures StartsAtFirst(Append(s, e).chans[k]) {
      OfferStartsAtFirst(s.chans[k], s.log, e);
    }
  }

  lemma StepStartsAtFirst(s: Stream, op: Op)
    requires Inv(s) && AllStartAtFirst(s)
    ensures AllStartAtFirst(Step(s, op))
  {
    match op
    case Publish(data) =>
      if !Unreachable(s) && !s.done { AppendStartsAtFirst(s, Event(Itoa(s.nextID), "output", data)); }
    case Complete(data) =>
      if !Unreachable(s) && !s.done { AppendStartsAtFirst(s, Event(Itoa(s.nextID), "complete", data)); }
    case _ =>
  }

  lemma {:induction false} RunStartsAtFirst(trace: seq<Op>)
    ensures AllStartAtFirst(Run(trace))
  {
    if |trace| > 0 {
      RunKeepsInv(trace[..|trace| - 1]);
      RunStartsAtFirst(trace[..|trace| - 1]);
      StepStartsAtFirst(Run(trace[..|trace| - 1]), trace[|trace| - 1]);
    }
  }

  ghost predicate AllAbove(c: Chan, id: int) { forall i :: 0 <= i < |c.sent| ==> Num(c.sent[i]) > id }

  /** Where the delivery to a client with this header starts. */
  lemma HeaderStart(before: seq<Op>, header: string)
    requires header != "" && Atoi(header).ok && |Run(before).log| <= MAX_INT
    requires |Run(Reconnect(before, header)).chans| == |Run(before).chans| + 1
    ensures var s0 := Run(before); var c := Run(Reconnect(before, header)).chans[|s0.chans|];
      && (Atoi(header).value < s0.nextID ==> Atoi(header).value <= c.from)
      && (Atoi(header).value >= s0.nextID ==> c.from == |s0.log| && c.sent == [] && c.registered == !s0.done)
  {
    RunKeepsInv(before);
    RunSnoc(before, Subscribe(header));
    SubscribeStart(Run(before), header);
  }

  lemma SubscribeStart(s: Stream, header: string)
    requires Inv(s) && header != "" && Atoi(header).ok && |s.log| <= MAX_INT
    requires |SubscribeStep(s, header).chans| == |s.chans| + 1
    ensures var c := SubscribeStep(s, header).chans[|s.chans|];
      && (Atoi(header).value < s.nextID ==> Atoi(header).value <= c.from)
      && (Atoi(header).value >= s.nextID ==> c.from == |s.log| && c.sent == [] && c.registered == !s.done)
  {
    BufferNums(s);
    FirstAboveMeaning(s.events, Atoi(header).value, s.nextID - |s.events|);
  }

  /** So far: only events after the header iff it was in use, or nothing was delivered. */
  lemma AboveSoFar(before: seq<Op>, header: string, later: seq<Op>)
    requires header != "" && Atoi(header).ok && |Run(Reconnect(before, header) + later).log| <= MAX_INT
    requires |Run(Reconnect(before, header)).chans| == |Run(before).chans| + 1
    ensures var s0 := Run(before); var s := Run(Reconnect(before, header) + later);
      && |s.chans| > |s0.chans|
      && var c := s.chans[|s0.chans|];
         AllAbove(c, Atoi(header).value) <==> Atoi(header).value < s0.nextID || c.sent == []
  {
    var t := Reconnect(before, header);
    var k, s := |Run(before).chans|, Run(t + later);
    RunKeepsInv(t + later);
    RunStartsAtFirst(t + later);
    LaterGrows(before, [Subscribe(header)]);
    LaterGrows(t, later);
    HeaderStart(before, header);
    var c := s.chans[k];
    assert ChanGrew(Run(t).chans[k], c) && ChanOk(c, s.log, s.done) && StartsAtFirst(c);
    SentNums(s, k);
    RunKeepsInv(before);
    if Atoi(header).value >= Run(before).nextID && c.sent != [] {
      assert Num(c.sent[0]) == c.from + 1 <= Atoi(header).value;
    }
  }

  lemma StepKeepsOver(s: Stream, op: Op, k: nat)
    requires s.done && k < |s.chans|
    ensures var t := Step(s, op); t.done && k < |t.chans| && t.chans[k].sent == s.chans[k].sent
  {
  }

  /** Once a stream is over, nothing is put in any channel. */
  lemma {:induction false} LaterKeepsOver(before: seq<Op>, later: seq<Op>, k: nat)
    requires Run(before).done && k < |Run(before).chans|
    ensures var s := Run(before); var t := Run(before + later);
      t.done && k < |t.chans| && t.chans[k].sent == s.chans[k].sent
  {
    if |later| == 0 {
      assert before + later == before;
    } else {
      var front := later[..|later| - 1];
      assert before + later == before + front + [later[|later| - 1]];
      LaterKeepsOver(before, front, k);
      RunSnoc(before + front, later[|later| - 1]);
      StepKeepsOver(Run(before + front), later[|later| - 1], k);
    }
  }

  lemma StepKeepsClosed(s: Stream, op: Op, k: nat)
    requires Inv(s) && k < |s.chans| && s.chans[k].closed && op != Receive(k)
    ensures k < |Step(s, op).chans| && Step(s, op).chans[k] == s.chans[k]
  {
    assert ChanOk(s.chans[k], s.log, s.done);
  }

  /** A channel that is closed changes only when its client receives. */
  lemma {:induction false} LaterKeepsClosed(before: seq<Op>, later: seq<Op>, k: nat)
    requires k < |Run(before).chans| && Run(before).chans[k].closed && Receive(k) !in later
    ensures k < |Run(before + later).chans| && Run(before + later).chans[k] == Run(before).chans[k]
  {
    if |later| == 0 {
      assert before + later == before;
    } else {
      var front, op := later[..|later| - 1], later[|later| - 1];
      assert before + later == before + front + [op];
      LaterKeepsClosed(before, front, k);
      RunKeepsInv(before + front);
      RunSnoc(before + front, op);
      StepKeepsClosed(Run(before + front), op, k);
    }
  }

  /** Whatever is called later, only events after this id are delivered to the k-th subscriber. */
  ghost predicate AboveForGood(t: seq<Op>, k: nat, id: int) {
    forall later :: |Run(t + later).log| <= MAX_INT && k < |Run(t + later).chans| ==>
        AllAbove(Run(t + later).chans[k], id)
  }

  /**
   A client that is served is certain to get only events after its Last-Event-ID iff that id
   is in use already or the stream is over. A greater one, say from before a Cleanup, does
   not hold back the events that come next.
   */
  lemma AfterLastEventID(before: seq<Op>, header: string)
    requires header != "" && Atoi(header).ok && |Run(before).log| < MAX_INT
    requires |Run(Reconnect(before, header)).chans| == |Run(before).chans| + 1
    ensures AboveForGood(Reconnect(before, header), |Run(before).chans|, Atoi(header).value)
      <==> Atoi(header).value < Run(before).nextID || Run(before).done
  {
    var t, k, id := Reconnect(before, header), |Run(before).chans|, Atoi(header).value;
    HeaderStart(before, header);
    if id < Run(before).nextID || Run(before).done {
      forall later | |Run(t + later).log| <= MAX_INT && k < |Run(t + later).chans|
        ensures AllAbove(Run(t + later).chans[k], id)
      {
        AboveSoFar(before, header, later);
        if id >= Run(before).nextID { OverStaysEmpty(before, header, later); }
      }
    } else {
      NextIsDelivered(before, header);
    }
  }

  lemma OverStaysEmpty(before: seq<Op>, header: string, later: seq<Op>)
    requires var t := Reconnect(before, header); var k := |Run(before).chans|;
      Run(before).done && |Run(t).chans| == k + 1 && Run(t).chans[k].sent == []
    ensures var t := Reconnect(before, header); var k := |Run(before).chans|;
      k < |Run(t + later).chans| && Run(t + later).chans[k].sent == []
  {
    RunSnoc(before, Subscribe(header));
    LaterKeepsOver(Reconnect(before, header), later, |Run(before).chans|);
  }

  /** A client with a header ahead of the stream is delivered the next event. */
  lemma NextIsDelivered(before: seq<Op>, header: string)
    requires header != "" && Atoi(header).ok && |Run(before).log| < MAX_INT
    requires |Run(Reconnect(before, header)).chans| == |Run(before).chans| + 1
    requires Atoi(header).value >= Run(before).nextID && !Run(before).done
    ensures !AboveForGood(Reconnect(before, header), |Run(before).chans|, Atoi(header).value)
  {
    var t, k := Reconnect(before, header), |Run(before).chans|;
    HeaderStart(before, header);
    RunSnoc(before, Subscribe(header));
    RunKeepsInv(t);
    RunSnoc(t, Publish(""));
    var s, after := Run(t), Run(t + [Publish("")]);
    assert ChanOk(s.chans[k], s.log, s.done);
    assert after == PublishStep(s, "") && |after.log| == |s.log| + 1 && |after.chans| == k + 1;
    assert after.chans[k].sent == [Event(Itoa(s.nextID), "output", "")];
    AboveSoFar(before, header, [Publish("")]);
  }

  /** For example: a header left over from before a Cleanup, and the first event of the new stream. */
  lemma EarlierEventDelivered(data: string)
    ensures var chans := Run(Reconnect([], "5") + [Publish(data)]).chans;
      && |chans| == 1 && chans[0].missed == 0 && chans[0].sent == [Event("1", "output", data)]
      && Num(chans[0].sent[0]) < Atoi("5").value
  {
    var joined := Reconnect([], "5");
    assert joined == [] + [Subscribe("5")];
    RunSnoc([], Subscribe("5"));
    RunSnoc(joined, Publish(data));
    ItoaRoundTrip(5);
    ItoaRoundTrip(1);
    assert Itoa(5) == "5" && Itoa(1) == "1";
    var s := Run(joined);
    assert |s.chans| == 1 && s.chans[0].registered && s.chans[0].sent == [];
    assert Run(joined + [Publish(data)]) == PublishStep(s, data);
  }

  // ----- A replay that does not fit -----

  predicate BlocksAt(trace: seq<Op>, i: nat)
    requires i < |trace|
  {
    var s := Run(trace[..i]);
    trace[i].Subscribe? && !Unreachable(s) && Blocks(s, trace[i].lastEventID)
  }

  lemma StuckStep(s: Stream, op: Op)
    ensures Step(s, op).stuck <==> s.stuck || (op.Subscribe? && !Unreachable(s) && Blocks(s, op.lastEventID))
  {
  }

  /**
   The stream's lock is lost for good iff some subscriber was owed more than 256 events of
   replay: nobody else holds the new channel yet, so its 257th send never returns.
   */
  lemma {:induction false} StuckIff(trace: seq<Op>)
    ensures Run(trace).stuck <==> exists i :: 0 <= i < |trace| && BlocksAt(trace, i)
  {
    if |trace| > 0 {
      var earlier := trace[..|trace| - 1];
      StuckIff(earlier);
      forall i | 0 <= i < |earlier| ensures BlocksAt(earlier, i) <==> BlocksAt(trace, i) {
        assert earlier[..i] == trace[..i];
      }
      var s := Run(earlier);
      var op := trace[|trace| - 1];
      StuckStep(s, op);
      assert BlocksAt(trace, |earlier|) <==> op.Subscribe? && !Unreachable(s) && Blocks(s, op.lastEventID);
      assert Run(trace) == Step(s, op);
    }
  }

  lemma {:induction false} PublishMany(n: nat, data: string)
    requires n <= MAX_BUFFERED
    ensures var s := Run(seq(n, i => Publish(data))); |s.events| == n && !Unreachable(s) && !s.done
  {
    if n > 0 {
      PublishMany(n - 1, data);
      var trace := seq(n, i => Publish(data));
      assert trace[..n - 1] == seq(n - 1, i => Publish(data));
    }
  }

  /** A first-time client that arrives after 257 chunks of output blocks the stream for ever. */
  lemma LateSubscriberBlocks(data: string)
    ensures Run(seq(257, i => Publish(data)) + [Subscribe("")]).stuck
  {
    PublishMany(257, data);
    RunSnoc(seq(257, i => Publish(data)), Subscribe(""));
  }

  /** From then on nothing changes but what clients take out of channels they already hold. */
  lemma {:induction false} StuckForever(before: seq<Op>, later: seq<Op>)
    requires Run(before).stuck
    ensures var s := Run(before); var t := Run(before + later);
      t.stuck && t.log == s.log && t.events == s.events && |t.chans| == |s.chans|
      && forall k :: 0 <= k < |s.chans| ==> t.chans[k] == s.chans[k].(taken := t.chans[k].taken)
  {
    if |later| == 0 {
      assert before + later == before;
    } else {
      StuckForever(before, later[..|later| - 1]);
      assert (before + later)[..|before + later| - 1] == before + later[..|later| - 1];
    }
  }

  // ----- Dropped events -----

  predicate DropsAt(trace: seq<Op>, i: nat, k: nat)
    requires i < |trace|
  {
    var s := Run(trace[..i]);
    && (trace[i].Publish? || trace[i].Complete?) && !Unreachable(s) && !s.done
    && k < |s.chans| && s.chans[k].registered && |s.chans[k].sent| - s.chans[k].taken == CHANNEL_SLOTS
  }

  ghost predicate Dropped(trace: seq<Op>, k: nat) { exists i :: 0 <= i < |trace| && DropsAt(trace, i, k) }

  lemma DroppedSnoc(trace: seq<Op>, k: nat)
    requires |trace| > 0
    ensures Dropped(trace, k) <==> Dropped(trace[..|trace| - 1], k) || DropsAt(trace, |trace| - 1, k)
  {
    var earlier := trace[..|trace| - 1];
    forall i | 0 <= i < |earlier| ensures DropsAt(earlier, i, k) <==> DropsAt(trace, i, k) {
      assert earlier[..i] == trace[..i];
    }
  }

  /** A subscriber has a gap iff some event came while it was registered and its channel held 256 events. */
  lemma {:induction false} MissedIff(trace: seq<Op>, k: nat)
    requires k < |Run(trace).chans|
    ensures Run(trace).chans[k].missed > 0 <==> Dropped(trace, k)
  {
    var earlier := trace[..|trace| - 1];
    if k < |Run(earlier).chans| {
      MissedIff(earlier, k);
    } else {
      NoDropBefore(earlier, k);
    }
    DroppedSnoc(trace, k);
    LastStepDrops(trace, k);
  }

  lemma LastStepDrops(trace: seq<Op>, k: nat)
    requires |trace| > 0 && k < |Run(trace).chans|
    ensures var c := Run(trace).chans[k];
      var s := Run(trace[..|trace| - 1]);
      if k < |s.chans| then c.missed >= s.chans[k].missed
          && (DropsAt(trace, |trace| - 1, k) <==> c.missed > s.chans[k].missed)
      else c.missed == 0 && !DropsAt(trace, |trace| - 1, k)
  {
    RunKeepsInv(trace[..|trace| - 1]);
    MissedStep(Run(trace[..|trace| - 1]), trace[|trace| - 1], k);
  }

  lemma MissedStep(s: Stream, op: Op, k: nat)
    requires Inv(s) && k < |Step(s, op).chans|
    ensures k < |s.chans| ==> (Step(s, op).chans[k].missed > s.chans[k].missed
      <==> (op.Publish? || op.Complete?) && !Unreachable(s) && !s.done && s.chans[k].registered
           && |s.chans[k].sent| - s.chans[k].taken == CHANNEL_SLOTS)
    ensures k < |s.chans| ==> Step(s, op).chans[k].missed >= s.chans[k].missed
    ensures k >= |s.chans| ==> Step(s, op).chans[k].missed == 0
  {
    assert k < |s.chans| ==> ChanOk(s.chans[k], s.log, s.done);
  }

  lemma NoDropBefore(trace: seq<Op>, k: nat)
    requires k >= |Run(trace).chans|
    ensures forall i :: 0 <= i < |trace| ==> !DropsAt(trace, i, k)
  {
    forall i | 0 <= i < |trace| ensures !DropsAt(trace, i, k) {
      assert trace == trace[..i] + trace[i..];
      LaterGrows(trace[..i], trace[i..]);
    }
  }
}
