/**
 The stream manager's objects. Each method is proved to be one step of `StreamSpec`:
 a stream records the calls it served, and its fields are always what running those
 calls gives, so every theorem about runs is about these objects.
 */
module StreamManager {
  import opened Wrappers
  import opened Decimal
  import opened StreamSpec
  import opened StreamRuns

  /** A subscriber's buffered channel. A send after close, and a second close, would panic. */
  class Subscriber {
    var queue: seq<Event>
    var closed: bool
    ghost var received: seq<Event>
    ghost var pos: seq<nat>
    ghost var missed: nat
    ghost var from: nat
    ghost var joined: nat
    ghost var quit: bool
    ghost const home: ExecutionStream

    ghost function View(registered: bool): Chan
      reads this
    {
      Chan(received + queue, |received|, registered, closed, pos, missed, from, joined, quit)
    }

    constructor (ghost stream: ExecutionStream)
      ensures queue == [] && !closed && received == [] && pos == [] && missed == 0 && !quit && home == stream
    {
      home := stream;
      queue, closed, received, pos, missed, quit := [], false, [], [], 0, false;
    }

    /** The plain send; it waits, for a receiver nobody has given the channel to, when there is no free slot. */
    method Send(e: Event)
      requires !closed && |queue| < CHANNEL_SLOTS
      modifies this`queue
      ensures queue == old(queue) + [e]
    {
      queue := queue + [e];
    }

    /** The send of a `select` with a default branch. */
    method TrySend(e: Event, ghost at: nat)
      requires !closed
      modifies this
      ensures View(true) == Offer(old(View(true)), e, at)
    {
      if |queue| < CHANNEL_SLOTS {
        queue := queue + [e];
        pos := pos + [at];
        assert received + queue == old(received + queue) + [e];
      } else {
        missed := missed + 1;
      }
    }

    method CloseChannel(ghost leaving: bool)
      requires !closed
      modifies this
      ensures View(false) == Close(old(View(true)), leaving)
    {
      closed, quit := true, leaving;
    }

    /** The client's side: the next event, or nothing when the channel is empty. */
    method Receive() returns (e: Option<Event>)
      modifies this
      ensures e == if old(queue) == [] then None else Some(old(queue)[0])
      ensures e.Some? ==> received == old(received) + [e.value] && queue == old(queue)[1..]
      ensures forall r :: View(r) == if old(queue) == [] then old(View(r))
          else old(View(r)).(taken := old(View(r)).taken + 1)
    {
      if queue == [] {
        e := None;
      } else {
        e := Some(queue[0]);
        received, queue := received + [queue[0]], queue[1..];
        assert received + queue == old(received + queue);
      }
    }
  }

  /** One execution's stream. `locked` says that a call holds its lock for ever. */
  class ExecutionStream {
    var events: seq<Event>
    var subscribers: set<Subscriber>
    var nextID: nat
    var done: bool
    var locked: bool
    ghost var gone: bool
    ghost var log: seq<Event>
    ghost var known: seq<Subscriber>
    ghost var state: Stream
    ghost const executionID: string

    ghost function View(): Stream
      reads this, known
    {
      Stream(events, nextID, done, locked, gone, log,
             seq(|known|, k requires 0 <= k < |known| reads this, known => known[k].View(known[k] in subscribers)))
    }

    ghost predicate Consistent()
      reads this, known
    {
      && (forall s :: s in subscribers ==> s in known && !s.closed)
      && (forall s :: s in known ==> s.home == this)
      && (forall i, j :: 0 <= i < j < |known| ==> known[i] != known[j])
    }

    /** The fields are what some run of calls gives. */
    ghost predicate Valid()
      reads this, known
    {
      && Consistent()
      && state == View()
      && Reachable(state)
    }

    /** The stream of this id, still in the map, and its state. */
    ghost predicate Holds(id: string, now: Stream)
      reads this, known
    {
      Valid() && !gone && executionID == id && state == now
    }

    constructor (ghost id: string)
      ensures Valid() && known == [] && !gone && state == Init() && executionID == id
    {
      executionID := id;
      events, subscribers, nextID, done, locked := [], {}, 1, false, false;
      gone, log, known, state := false, [], [], Init();
      new;
      assert View() == Run([]);
    }

    twostate lemma Unaffected()
      requires old(Valid()) && unchanged(this) && forall s :: s in known ==> unchanged(s)
      ensures Valid()
    {
      forall k | 0 <= k < |known| ensures View().chans[k] == old(View()).chans[k] {
        assert known[k] in known;
      }
      assert View().chans == old(View()).chans;
    }

    /** Sends to every subscriber without waiting for any. */
    method FanOutEvent(e: Event, ghost at: nat)
      requires forall s :: s in subscribers ==> s in known && !s.closed
      modifies subscribers
      ensures forall s :: s in known ==> s.View(s in subscribers) == Offer(old(s.View(s in subscribers)), e, at)
      ensures forall s :: s in subscribers ==> !s.closed
    {
      var rest := subscribers;
      while rest != {}
        invariant rest <= subscribers
        invariant forall s :: s in known && s !in rest ==>
            s.View(s in subscribers) == Offer(old(s.View(s in subscribers)), e, at)
        invariant forall s :: s in rest ==> s.View(true) == old(s.View(true))
        invariant forall s :: s in subscribers ==> !s.closed
      {
        var sub :| sub in rest;
        sub.TrySend(e, at);
        rest := rest - {sub};
      }
    }

    method CloseSubscribers(ghost leaving: bool)
      requires forall s :: s in subscribers ==> s in known && !s.closed
      modifies subscribers
      ensures forall s :: s in known ==> s.View(false) == Close(old(s.View(s in subscribers)), leaving)
    {
      var rest := subscribers;
      while rest != {}
        invariant rest <= subscribers
        invariant forall s :: s in known && s !in rest ==>
            s.View(false) == Close(old(s.View(s in subscribers)), leaving)
        invariant forall s :: s in rest ==> s.View(true) == old(s.View(true)) && !s.closed
      {
        var sub :| sub in rest;
        sub.CloseChannel(leaving);
        rest := rest - {sub};
      }
    }

    /** Numbers, logs and buffers an event, and offers it to the subscribers. */
    method Emit(event: Event)
      requires Consistent()
      modifies this, subscribers
      ensures Consistent() && known == old(known) && subscribers == old(subscribers)
      ensures View() == Append(old(View()), event)
    {
      ghost var before := View();
      FanOutEvent(event, |log|);
      nextID := nextID + 1;
      log := log + [event];
      events := events + [event];
      assert View().chans == FanOut(before.chans, event, |before.log|);
    }

    /** Waits for ever when the lock is lost: `returned` is then false and nothing changed. */
    method Publish(data: string) returns (returned: bool)
      requires Valid() && !gone
      modifies this, subscribers
      ensures Valid() && known == old(known) && gone == old(gone)
      ensures state == Step(old(state), StreamSpec.Publish(data))
      ensures returned <==> !old(locked)
    {
      ghost var before := state;
      ReachableStep(before, StreamSpec.Publish(data));
      returned := !locked;
      if !locked && !done {
        Emit(Event(Itoa(nextID), "output", data));
        ghost var chans := View().chans;
        if |events| > MAX_BUFFERED {
          events := events[|events| - MAX_BUFFERED..];
        }
        assert View().chans == chans;
      }
      state := Step(before, StreamSpec.Publish(data));
      assert View().chans == state.chans;
    }

    method Complete(data: string) returns (returned: bool)
      requires Valid() && !gone
      modifies this, subscribers
      ensures Valid() && known == old(known) && gone == old(gone)
      ensures state == Step(old(state), StreamSpec.Complete(data))
      ensures returned <==> !old(locked)
    {
      ghost var before := state;
      ReachableStep(before, StreamSpec.Complete(data));
      returned := !locked;
      if !locked && !done {
        Emit(Event(Itoa(nextID), "complete", data));
        CloseSubscribers(false);
        done := true;
        subscribers := {};
      }
      state := Step(before, StreamSpec.Complete(data));
      assert View().chans == state.chans;
    }

    /** The index the replay starts from. */
    method FindReplayStart(lastEventID: string) returns (replayFrom: nat)
      ensures replayFrom == ReplayFrom(events, lastEventID)
      ensures lastEventID == "" || !Atoi(lastEventID).ok ==> replayFrom == 0
    {
      replayFrom := 0;
      if lastEventID != "" {
        var parsed := Atoi(lastEventID);
        if parsed.ok {
          var i := 0;
          while i < |events|
            invariant i <= |events|
            invariant replayFrom == if i == 0 then 0 else |events|
            invariant FirstAbove(events, parsed.value) == i + FirstAbove(events[i..], parsed.value)
          {
            if Num(events[i]) > parsed.value {
              replayFrom := i;
              break;
            }
            assert events[i..][1..] == events[i + 1..];
            replayFrom := |events|;
            i := i + 1;
          }
        }
      }
    }

    /**
     Sends the buffered events from `replayFrom` on. No one can receive from the channel
     yet, so it is not the end when no slot is free: the send then waits for ever.
     */
    method ReplayInto(sub: Subscriber, replayFrom: nat) returns (fits: bool)
      requires replayFrom <= |events| && sub.queue == [] && !sub.closed
      modifies sub`queue
      ensures fits <==> |events| - replayFrom <= CHANNEL_SLOTS
      ensures fits ==> sub.queue == events[replayFrom..]
    {
      var i := replayFrom;
      while i < |events| && |sub.queue| < CHANNEL_SLOTS
        invariant replayFrom <= i <= |events|
        invariant sub.queue == events[replayFrom..i] && |sub.queue| <= CHANNEL_SLOTS
      {
        sub.Send(events[i]);
        i := i + 1;
      }
      fits := i == |events|;
    }

    /** Hands out the channel: closed when the execution is over, registered otherwise. */
    method Register(sub: Subscriber)
      requires forall s :: s in subscribers ==> s in known
      requires sub !in known && sub !in subscribers
      requires !sub.closed && sub.received == [] && sub.missed == 0 && !sub.quit
      modifies this, sub
      ensures known == old(known) + [sub]
      ensures subscribers == if done then old(subscribers) else old(subscribers) + {sub}
      ensures sub.closed == done
      ensures View() == old(View()).(chans := old(View()).chans + [Joined(old(View()), old(sub.queue))])
      ensures gone == old(gone)
    {
      ghost var before := View();
      ghost var chan := Joined(before, sub.queue);
      sub.pos, sub.from, sub.joined := chan.pos, chan.from, chan.joined;
      assert sub.received + sub.queue == sub.queue;
      if done {
        sub.closed := true;
      } else {
        subscribers := subscribers + {sub};
      }
      known := known + [sub];
      assert View().chans == before.chans + [chan];
    }

    /** A new subscriber that is replayed the buffer from `replayFrom` on, if that fits its channel. */
    method Join(replayFrom: nat) returns (sub: Subscriber?)
      requires Consistent() && replayFrom <= |events|
      modifies this
      ensures Consistent() && gone == old(gone)
      ensures View() == JoinStep(old(View()), replayFrom)
      ensures sub == null <==> |old(events)| - replayFrom > CHANNEL_SLOTS
      ensures if sub == null then known == old(known) else fresh(sub) && known == old(known) + [sub]
    {
      ghost var before := View();
      sub := new Subscriber(this);
      var fits := ReplayInto(sub, replayFrom);
      assert View().chans == before.chans;
      if fits {
        Register(sub);
      } else {
        locked := true;
        assert View().chans == before.chans;
        sub := null;
      }
    }

    /**
     A new subscriber, replayed what it has not seen. The call never returns (a null
     result) when the lock is lost, and loses it when the replay does not fit the channel.
     */
    method Subscribe(lastEventID: string) returns (sub: Subscriber?)
      requires Valid() && !gone
      modifies this
      ensures Valid() && gone == old(gone)
      ensures state == Step(old(state), StreamSpec.Subscribe(lastEventID))
      ensures sub == null <==> state.stuck
      ensures sub != null ==> fresh(sub)
      ensures known == if sub == null then old(known) else old(known) + [sub]
    {
      ReachableStep(state, StreamSpec.Subscribe(lastEventID));
      ghost var before := state;
      if locked {
        sub := null;
      } else {
        var replayFrom := FindReplayStart(lastEventID);
        sub := Join(replayFrom);
      }
      state := Step(before, StreamSpec.Subscribe(lastEventID));
      assert View().chans == state.chans;
    }

    /** The closure Subscribe returned, for the k-th subscriber. */
    method Unsubscribe(sub: Subscriber, ghost k: nat) returns (returned: bool)
      requires Valid() && k < |known| && known[k] == sub
      modifies this, sub
      ensures Valid() && known == old(known) && gone == old(gone)
      ensures state == Step(old(state), StreamSpec.Unsubscribe(k))
      ensures returned <==> !old(locked)
    {
      ghost var before := state;
      ReachableStep(state, StreamSpec.Unsubscribe(k));
      returned := !locked;
      if !locked && sub in subscribers {
        subscribers := subscribers - {sub};
        sub.CloseChannel(true);
      }
      state := Step(before, StreamSpec.Unsubscribe(k));
      assert View().chans == state.chans;
    }

    /** The client of the k-th subscriber takes an event from its channel. */
    method ClientReceives(sub: Subscriber, ghost k: nat) returns (e: Option<Event>)
      requires Valid() && k < |known| && known[k] == sub
      modifies this, sub
      ensures Valid() && known == old(known) && gone == old(gone)
      ensures state == Step(old(state), StreamSpec.Receive(k))
      ensures e == if old(sub.queue) == [] then None else Some(old(sub.queue)[0])
      ensures e.Some? ==> sub.received == old(sub.received) + [e.value]
    {
      ghost var before := state;
      ReachableStep(state, StreamSpec.Receive(k));
      e := sub.Receive();
      state := Step(before, StreamSpec.Receive(k));
      assert View().chans == state.chans;
    }

    /** Cleanup's part on the stream itself. */
    method Dissolve() returns (returned: bool)
      requires Valid() && !gone
      modifies this, subscribers
      ensures Valid() && known == old(known) && gone == !old(state).stuck
      ensures state == Step(old(state), StreamSpec.Cleanup)
      ensures returned <==> !old(state).stuck
    {
      ghost var before := state;
      ReachableStep(state, StreamSpec.Cleanup);
      returned := !locked;
      if !locked {
        CloseSubscribers(true);
        assert forall k :: 0 <= k < |known| ==> known[k].View(false) == Close(before.chans[k], true);
        subscribers, events, gone := {}, [], true;
      }
      state := Step(before, StreamSpec.Cleanup);
      assert View().chans == state.chans;
    }
  }

  /** The stream of an id; an id without one stands for a new stream. */
  function StateOf(states: map<string, Stream>, id: string): Stream {
    if id in states then states[id] else Init()
  }

  lemma SameState<K, V>(m: map<K, V>, k: K)
    requires k in m
    ensures m[k := m[k]] == m
  {
  }

  lemma Override<K, V>(m: map<K, V>, k: K, a: V, b: V)
    ensures m[k := a][k := b] == m[k := b]
  {
  }

  /**
   All streams. `locked` says that a call holds the manager's own lock for ever; `states`
   is what the streams in the map are in terms of the specification.
   */
  class Manager {
    var streams: map<string, ExecutionStream>
    var locked: bool
    ghost var states: map<string, Stream>
    ghost var Repr: set<object>

    ghost predicate Owned()
      reads this, Repr
    {
      forall id :: id in streams ==> streams[id] in Repr && forall s :: s in streams[id].known ==> s in Repr
    }

    /** The streams are in order, in the map, and share nothing. */
    ghost predicate Valid()
      reads this, Repr
    {
      && this !in Repr && Owned()
      && states.Keys == streams.Keys
      && (forall id :: id in streams ==> streams[id].Holds(id, states[id]))
    }

    ghost function View(id: string): Stream
      reads this
    {
      StateOf(states, id)
    }

    constructor ()
      ensures Valid() && streams == map[] && !locked && Repr == {} && states == map[]
    {
      streams, locked, Repr, states := map[], false, {}, map[];
    }

    method CreateStream(id: string) returns (es: ExecutionStream)
      requires Valid() && id !in streams
      modifies this
      ensures Valid() && locked == old(locked)
      ensures fresh(es) && Repr == old(Repr) + {es} && es.known == []
      ensures streams == old(streams)[id := es] && states == old(states)[id := Init()]
    {
      es := new ExecutionStream(id);
      streams := streams[id := es];
      states := states[id := Init()];
      Repr := Repr + {es};
      AllJoined(id);
    }

    /** A new stream next to the others. */
    twostate lemma AllJoined(id: string)
      requires old(Valid()) && id !in old(streams) && old(Repr) <= Repr && this !in Repr
      requires id in streams && streams == old(streams)[id := streams[id]] && states == old(states)[id := Init()]
      requires streams[id] in Repr && streams[id].known == [] && streams[id].Holds(id, Init())
      requires forall other :: other in old(streams) ==>
        unchanged(old(streams[other])) && forall s :: s in old(streams[other].known) ==> unchanged(s)
      ensures Valid()
    {
      forall other | other in old(streams) ensures streams[other].Holds(other, states[other]) {
        streams[other].Unaffected();
      }
      forall other | other in streams
          ensures streams[other] in Repr && forall s :: s in streams[other].known ==> s in Repr {
        if other != id { assert old(streams[other] in Repr && forall s :: s in streams[other].known ==> s in Repr); }
      }
    }

    method GetOrCreateStream(id: string) returns (es: ExecutionStream)
      requires Valid()
      modifies this
      ensures Valid() && locked == old(locked) && fresh(Repr - old(Repr)) && old(Repr) <= Repr
      ensures id in streams && es == streams[id] && es.state == old(View(id))
      ensures states == old(states)[id := old(View(id))]
      ensures if id in old(streams) then streams == old(streams) else streams == old(streams)[id := es] && fresh(es)
    {
      if id in streams {
        es := streams[id];
      } else {
        es := CreateStream(id);
      }
    }

    /** After a call on one stream, the others hold what they held. */
    twostate lemma OthersStay(id: string)
      requires old(Valid()) && id in old(streams) && streams == old(streams)
      requires forall other :: other in old(streams) && other != id ==>
        unchanged(old(streams[other])) && forall s :: s in old(streams[other].known) ==> unchanged(s)
      ensures forall other :: other in streams && other != id ==> streams[other].Holds(other, old(states[other]))
      ensures forall other :: other in streams && other != id ==> streams[other].known == old(streams[other].known)
    {
      forall other | other in streams && other != id ensures streams[other].Holds(other, old(states[other])) {
        streams[other].Unaffected();
      }
    }

    /** After a call on one stream that leaves it in order, everything is. */
    twostate lemma AllStay(id: string)
      requires old(Valid()) && id in old(streams) && streams == old(streams) && old(Repr) <= Repr && this !in Repr
      requires forall other :: other in old(streams) && other != id ==>
        unchanged(old(streams[other])) && forall s :: s in old(streams[other].known) ==> unchanged(s)
      requires streams[id].Holds(id, streams[id].state) && states == old(states)[id := streams[id].state]
      requires forall s :: s in streams[id].known ==> s in Repr
      ensures Valid()
    {
      OthersStay(id);
      forall other | other in streams
          ensures streams[other] in Repr && forall s :: s in streams[other].known ==> s in Repr {
        assert old(streams[other] in Repr && forall s :: s in streams[other].known ==> s in Repr);
      }
      forall other | other in streams ensures streams[other].Holds(other, states[other]) {}
    }

    /** After a call on one stream, and its removal, everything is in order. */
    twostate lemma OthersLeft(id: string)
      requires old(Valid()) && id in old(streams) && streams == old(streams) - {id} && states == old(states) - {id}
      requires Repr == old(Repr)
      requires forall other :: other in old(streams) && other != id ==>
        unchanged(old(streams[other])) && forall s :: s in old(streams[other].known) ==> unchanged(s)
      ensures Valid()
    {
      forall other | other in streams ensures streams[other].Holds(other, states[other]) {
        streams[other].Unaffected();
      }
      forall other | other in streams
          ensures streams[other] in Repr && forall s :: s in streams[other].known ==> s in Repr {
        assert old(streams[other] in Repr && forall s :: s in streams[other].known ==> s in Repr);
      }
    }

    /** Publish on a stream that is in the map. */
    method PublishTo(id: string, data: string) returns (returned: bool)
      requires Valid() && id in streams
      modifies this`states, Repr
      ensures Valid()
      ensures returned <==> !old(View(id)).stuck
      ensures states == old(states)[id := Step(old(View(id)), StreamSpec.Publish(data))]
    {
      returned := streams[id].Publish(data);
      states := states[id := streams[id].state];
      AllStay(id);
    }

    method Publish(id: string, data: string) returns (returned: bool)
      requires Valid()
      modifies this, Repr
      ensures Valid() && locked == old(locked) && fresh(Repr - old(Repr))
      ensures returned <==> !old(locked) && !old(View(id)).stuck
      ensures states == if old(locked) then old(states)
          else old(states)[id := Step(old(View(id)), StreamSpec.Publish(data))]
    {
      if locked {
        returned := false;
      } else {
        ghost var before, view := states, View(id);
        var es := GetOrCreateStream(id);
        returned := PublishTo(id, data);
        Override(before, id, view, Step(view, StreamSpec.Publish(data)));
      }
    }

    /** Complete on a stream that is in the map. */
    method CompleteOn(id: string, data: string) returns (returned: bool)
      requires Valid() && id in streams
      modifies this`states, Repr
      ensures Valid()
      ensures returned <==> !old(View(id)).stuck
      ensures states == old(states)[id := Step(old(View(id)), StreamSpec.Complete(data))]
    {
      returned := streams[id].Complete(data);
      states := states[id := streams[id].state];
      AllStay(id);
    }

    method Complete(id: string, data: string) returns (returned: bool)
      requires Valid()
      modifies this, Repr
      ensures Valid() && locked == old(locked) && fresh(Repr - old(Repr))
      ensures returned <==> !old(locked) && !old(View(id)).stuck
      ensures states == if old(locked) then old(states)
          else old(states)[id := Step(old(View(id)), StreamSpec.Complete(data))]
    {
      if locked {
        returned := false;
      } else {
        ghost var before, view := states, View(id);
        var es := GetOrCreateStream(id);
        returned := CompleteOn(id, data);
        Override(before, id, view, Step(view, StreamSpec.Complete(data)));
      }
    }

    /** The subscriber that the last channel of this stream belongs to. */
    ghost predicate NewestOf(sub: Subscriber, id: string)
      requires Owned()
      reads this, Repr
    {
      id in streams && |streams[id].known| > 0 && sub == streams[id].known[|streams[id].known| - 1]
    }

    /** Everything is in order but what is noted here of one stream. */
    ghost predicate OrderBut(id: string)
      reads this, Repr
    {
      && this !in Repr && states.Keys == streams.Keys && id in streams && streams[id] in Repr
      && (forall other :: other in streams && other != id ==>
            streams[other] in Repr && forall s :: s in streams[other].known ==> s in Repr)
      && (forall other :: other in streams && other != id ==> streams[other].Holds(other, states[other]))
    }

    /** Subscribe to a stream that is in the map, before the manager takes note of it. */
    method SubscribeOn(id: string, lastEventID: string) returns (sub: Subscriber?)
      requires Valid() && id in streams
      modifies Repr
      ensures OrderBut(id)
      ensures streams[id].Holds(id, Step(states[id], StreamSpec.Subscribe(lastEventID)))
      ensures sub == null <==> streams[id].state.stuck
      ensures sub != null ==> fresh(sub) && |streams[id].known| > 0 && sub == streams[id].known[|streams[id].known| - 1]
      ensures forall s :: s in streams[id].known ==> s in Repr || s == sub
    {
      assert streams[id].Holds(id, states[id]);
      sub := streams[id].Subscribe(lastEventID);
      OthersStay(id);
    }

    /** Takes note of the new state of one stream and of its newest subscriber, if it has one. */
    ghost method Note(id: string, sub: Subscriber?, next: Stream)
      requires OrderBut(id) && streams[id].Holds(id, next)
      requires forall s :: s in streams[id].known ==> s in Repr || s == sub
      modifies this`states, this`Repr
      ensures Valid() && Repr == old(Repr) + if sub == null then {} else {sub}
      ensures states == old(states)[id := next]
    {
      hide ExecutionStream.Holds;
      states := states[id := next];
      Repr := Repr + if sub == null then {} else {sub};
      forall other | other in streams ensures streams[other].Holds(other, states[other]) {}
    }

    /** Subscribe to a stream that is in the map. */
    method SubscribeTo(id: string, lastEventID: string) returns (sub: Subscriber?)
      requires Valid() && id in streams
      modifies this`states, this`Repr, Repr
      ensures Valid() && fresh(Repr - old(Repr))
      ensures sub == null <==> Step(old(View(id)), StreamSpec.Subscribe(lastEventID)).stuck
      ensures sub != null ==> NewestOf(sub, id)
      ensures states == old(states)[id := Step(old(View(id)), StreamSpec.Subscribe(lastEventID))]
    {
      hide ExecutionStream.Holds;
      sub := SubscribeOn(id, lastEventID);
      Note(id, sub, streams[id].state);
    }

    /** A null result is a call that never returns; any other is the subscriber with the stream's new channel. */
    method Subscribe(id: string, lastEventID: string) returns (sub: Subscriber?)
      requires Valid()
      modifies this, Repr
      ensures Valid() && locked == old(locked) && fresh(Repr - old(Repr))
      ensures sub == null <==> old(locked) || old(View(id)).stuck || Blocks(old(View(id)), lastEventID)
      ensures sub != null ==> NewestOf(sub, id)
      ensures states ==
        if old(locked) then old(states) else old(states)[id := Step(old(View(id)), StreamSpec.Subscribe(lastEventID))]
    {
      if locked {
        sub := null;
      } else {
        ghost var before, view := states, View(id);
        var es := GetOrCreateStream(id);
        sub := SubscribeTo(id, lastEventID);
        Override(before, id, view, Step(view, StreamSpec.Subscribe(lastEventID)));
      }
    }

    /** Cleanup of a stream that is in the map. */
    method DissolveStream(id: string) returns (returned: bool)
      requires Valid() && id in streams
      modifies this`streams, this`states, Repr
      ensures Valid()
      ensures returned <==> !old(View(id)).stuck
      ensures states == if returned then old(states) - {id} else old(states)
      ensures streams == if returned then old(streams) - {id} else old(streams)
      ensures old(streams[id]).state == Step(old(View(id)), StreamSpec.Cleanup)
    {
      returned := streams[id].Dissolve();
      if returned {
        streams := streams - {id};
        states := states - {id};
        OthersLeft(id);
      } else {
        SameState(states, id);
        AllStay(id);
      }
    }

    /** Removes a stream; its id then names a new one. On a wedged stream the call takes the manager's lock with it. */
    method Cleanup(id: string) returns (returned: bool)
      requires Valid()
      modifies this, Repr
      ensures Valid() && Repr == old(Repr)
      ensures returned <==> !old(locked) && !old(View(id)).stuck
      ensures locked == !returned
      ensures states == if returned then old(states) - {id} else old(states)
      ensures id in old(streams) && returned ==> old(streams[id]).state == Step(old(View(id)), StreamSpec.Cleanup)
    {
      if locked {
        returned := false;
      } else if id in streams {
        returned := DissolveStream(id);
        locked := !returned;
      } else {
        returned := true;
        assert states - {id} == states;
      }
    }
  }
}
