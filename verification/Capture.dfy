/** Capturing a command's output: from the engine's frames to the record and to the stream. */
module Capture {
  import opened Demux
  import opened Decimal
  import opened StreamSpec
  import opened StreamManager

  /** The text of one stream: the data of its chunks, in order. */
  function Text(chunks: seq<Chunk>, stream: string): seq<Byte> {
    if |chunks| == 0 then []
    else
      var last := chunks[|chunks| - 1];
      Text(chunks[..|chunks| - 1], stream) + (if last.stream == stream then last.data else [])
  }

  function Publishes(chunks: seq<Chunk>, json: Chunk -> string): seq<Op> {
    seq(|chunks|, i requires 0 <= i < |chunks| => Publish(json(chunks[i])))
  }

  lemma TextNext(chunks: seq<Chunk>, i: nat, stream: string)
    requires i < |chunks|
    ensures Text(chunks[..i + 1], stream) ==
        Text(chunks[..i], stream) + (if chunks[i].stream == stream then chunks[i].data else [])
  {
    assert chunks[..i + 1][..i] == chunks[..i];
  }

  /** The streams after publishing these chunks on one of them. */
  function Published(states: map<string, Stream>, id: string, chunks: seq<Chunk>, json: Chunk -> string)
    : map<string, Stream>
  {
    if chunks == [] then states else states[id := RunFrom(StateOf(states, id), Publishes(chunks, json))]
  }

  lemma PublishedNext(states: map<string, Stream>, id: string, chunks: seq<Chunk>, i: nat, json: Chunk -> string)
    requires i < |chunks|
    ensures var now := Published(states, id, chunks[..i], json);
      && Published(states, id, chunks[..i + 1], json) == now[id := Step(StateOf(now, id), Publish(json(chunks[i])))]
      && StateOf(now, id).stuck == StateOf(states, id).stuck
  {
    var s := StateOf(states, id);
    assert Publishes(chunks[..i + 1], json)[..i] == Publishes(chunks[..i], json);
    PublishingKeepsStuck(s, chunks[..i], json);
    if i > 0 {
      assert RunFrom(s, Publishes(chunks[..i + 1], json)) ==
          PublishStep(RunFrom(s, Publishes(chunks[..i], json)), json(chunks[i]));
    }
  }

  /** Publishing never loses the lock, and changes nothing once it is lost. */
  lemma {:induction false} PublishingKeepsStuck(s: Stream, chunks: seq<Chunk>, json: Chunk -> string)
    ensures RunFrom(s, Publishes(chunks, json)).stuck == s.stuck
    ensures s.stuck ==> RunFrom(s, Publishes(chunks, json)) == s
  {
    if |chunks| > 0 {
      var front := chunks[..|chunks| - 1];
      assert Publishes(chunks, json)[..|chunks| - 1] == Publishes(front, json);
      PublishingKeepsStuck(s, front, json);
    }
  }

  /** On a wedged stream the first chunk is as good as all of them. */
  lemma PublishedWedged(states: map<string, Stream>, id: string, chunks: seq<Chunk>, i: nat, json: Chunk -> string)
    requires StateOf(states, id).stuck && 0 < i <= |chunks|
    ensures Published(states, id, chunks[..i], json) == Published(states, id, chunks, json)
  {
    PublishingKeepsStuck(StateOf(states, id), chunks[..i], json);
    PublishingKeepsStuck(StateOf(states, id), chunks, json);
  }

  /** One chunk: its text goes to the builder of its stream, and the chunk to the execution's stream. */
  method CaptureChunk(mgr: Manager, executionID: string, chunk: Chunk, json: Chunk -> string, stdout: seq<Byte>,
      stderr: seq<Byte>)
    returns (out: seq<Byte>, err: seq<Byte>, returned: bool)
    requires mgr.Valid() && !mgr.locked
    modifies mgr, mgr.Repr
    ensures mgr.Valid() && !mgr.locked && fresh(mgr.Repr - old(mgr.Repr))
    ensures out == stdout + (if chunk.stream == "stdout" then chunk.data else [])
    ensures err == stderr + (if chunk.stream == "stderr" then chunk.data else [])
    ensures returned <==> !StateOf(old(mgr.states), executionID).stuck
    ensures mgr.states ==
      old(mgr.states)[executionID := Step(StateOf(old(mgr.states), executionID), Publish(json(chunk)))]
  {
    out, err := stdout, stderr;
    if chunk.stream == "stdout" {
      out := out + chunk.data;
    } else if chunk.stream == "stderr" {
      err := err + chunk.data;
    }
    returned := mgr.Publish(executionID, json(chunk));
  }

  /** The texts and the streams after the first i chunks. */
  ghost predicate Captured(now: map<string, Stream>, stdout: seq<Byte>, stderr: seq<Byte>, returned: bool,
                           states: map<string, Stream>, id: string, chunks: seq<Chunk>, i: nat, json: Chunk -> string)
    requires i <= |chunks|
  {
    && stdout == Text(chunks[..i], "stdout") && stderr == Text(chunks[..i], "stderr")
    && now == Published(states, id, chunks[..i], json)
    && (returned <==> i == 0 || !StateOf(states, id).stuck)
  }

  lemma CapturedNext(now: map<string, Stream>, stdout: seq<Byte>, stderr: seq<Byte>, returned: bool,
                     states: map<string, Stream>, id: string, chunks: seq<Chunk>, i: nat, json: Chunk -> string)
    requires i < |chunks| && Captured(now, stdout, stderr, true, states, id, chunks, i, json)
    requires returned <==> !StateOf(now, id).stuck
    ensures Captured(now[id := Step(StateOf(now, id), Publish(json(chunks[i])))],
                     stdout + (if chunks[i].stream == "stdout" then chunks[i].data else []),
                     stderr + (if chunks[i].stream == "stderr" then chunks[i].data else []),
                     returned, states, id, chunks, i + 1, json)
  {
    TextNext(chunks, i, "stdout");
    TextNext(chunks, i, "stderr");
    PublishedNext(states, id, chunks, i, json);
  }

  lemma CapturedAll(now: map<string, Stream>, stdout: seq<Byte>, stderr: seq<Byte>, returned: bool,
                    states: map<string, Stream>, id: string, chunks: seq<Chunk>, i: nat, json: Chunk -> string)
    requires i <= |chunks| && Captured(now, stdout, stderr, returned, states, id, chunks, i, json)
    requires returned ==> i == |chunks|
    ensures returned <==> chunks == [] || !StateOf(states, id).stuck
    ensures returned ==> stdout == Text(chunks, "stdout") && stderr == Text(chunks, "stderr")
    ensures now == Published(states, id, chunks, json)
  {
    assert chunks[..|chunks|] == chunks;
    if !returned { PublishedWedged(states, id, chunks, i, json); }
  }

  /**
   Reads the output until its channel closes. Publishing waits for ever on a stream whose
   lock is lost, and then the capture does not return. No other stream changes.
   */
  method CaptureOutput(mgr: Manager, executionID: string, output: seq<Chunk>, json: Chunk -> string)
    returns (stdout: seq<Byte>, stderr: seq<Byte>, returned: bool)
    requires mgr.Valid() && !mgr.locked
    modifies mgr, mgr.Repr
    ensures mgr.Valid() && !mgr.locked
    ensures returned <==> output == [] || !StateOf(old(mgr.states), executionID).stuck
    ensures returned ==> stdout == Text(output, "stdout") && stderr == Text(output, "stderr")
    ensures mgr.states == Published(old(mgr.states), executionID, output, json)
  {
    stdout, stderr, returned := [], [], true;
    var i := 0;
    while i < |output| && returned
      invariant i <= |output| && mgr.Valid() && !mgr.locked && fresh(mgr.Repr - old(mgr.Repr))
      invariant Captured(mgr.states, stdout, stderr, returned, old(mgr.states), executionID, output, i, json)
    {
      ghost var now, out, err := mgr.states, stdout, stderr;
      stdout, stderr, returned := CaptureChunk(mgr, executionID, output[i], json, stdout, stderr);
      CapturedNext(now, out, err, returned, old(mgr.states), executionID, output, i, json);
      i := i + 1;
    }
    CapturedAll(mgr.states, stdout, stderr, returned, old(mgr.states), executionID, output, i, json);
  }

  // ----- Conservation: engine frames, record, stream -----

  /** The payloads of the frames of type 2, or of all others, in order. */
  function PayloadsOf(frames: seq<Frame>, type2: bool): seq<Byte> {
    if |frames| == 0 then []
    else (if (frames[0].kind == 2) == type2 then frames[0].payload else []) + PayloadsOf(frames[1..], type2)
  }

  lemma {:induction false} TextConcat(a: seq<Chunk>, b: seq<Chunk>, stream: string)
    ensures Text(a + b, stream) == Text(a, stream) + Text(b, stream)
  {
    if |b| == 0 {
      assert a + b == a;
    } else {
      assert (a + b)[..|a + b| - 1] == a + b[..|b| - 1];
      TextConcat(a, b[..|b| - 1], stream);
    }
  }

  lemma {:induction false} TextOfFrames(frames: seq<Frame>, type2: bool)
    ensures Text(Chunks(frames), if type2 then "stderr" else "stdout") == PayloadsOf(frames, type2)
  {
    if |frames| > 0 {
      var stream := if type2 then "stderr" else "stdout";
      TextOfFrames(frames[1..], type2);
      if frames[0].payload != [] {
        var chunk := Chunk(StreamName(frames[0].kind), frames[0].payload);
        TextConcat([chunk], Chunks(frames[1..]), stream);
        assert [chunk][..0] == [];
      }
    }
  }

  /** The log of a fresh stream after publishing: the same chunks, numbered from 1. */
  lemma {:induction false} PublishedLog(chunks: seq<Chunk>, json: Chunk -> string)
    ensures var s := RunFrom(Init(), Publishes(chunks, json));
      && |s.log| == |chunks| && s.nextID == |chunks| + 1 && !Unreachable(s) && !s.done
      && forall i :: 0 <= i < |chunks| ==> s.log[i] == Event(Itoa(i + 1), "output", json(chunks[i]))
  {
    if |chunks| > 0 {
      var front := chunks[..|chunks| - 1];
      assert Publishes(chunks, json)[..|chunks| - 1] == Publishes(front, json);
      PublishedLog(front, json);
    }
  }

  function Sizes(frames: seq<Frame>): nat {
    if |frames| == 0 then 0 else |frames[0].payload| + Sizes(frames[1..])
  }

  lemma {:induction false} NothingLost(frames: seq<Frame>)
    ensures |PayloadsOf(frames, false)| + |PayloadsOf(frames, true)| == Sizes(frames)
  {
    if |frames| > 0 { NothingLost(frames[1..]); }
  }

  /**
   Across the layers: of what the engine sends, whatever comes after the last complete
   frame, the record's error text gets the payloads of the frames of type 2 in order, and
   its output text those of all others, no byte more or less, and
   a fresh stream carries exactly the non-empty frames as events 1, 2, 3, ...
   */
  lemma OutputConserved(frames: seq<Frame>, rest: seq<Byte>, json: Chunk -> string)
    requires !HasFrame(rest)
    ensures var output := Decode(EncodeAll(frames) + rest);
      && Text(output, "stdout") == PayloadsOf(frames, false)
      && Text(output, "stderr") == PayloadsOf(frames, true)
      && |Text(output, "stdout")| + |Text(output, "stderr")| == Sizes(frames)
      && var log := RunFrom(Init(), Publishes(output, json)).log;
         && |log| == |Chunks(frames)|
         && forall i :: 0 <= i < |log| ==> log[i] == Event(Itoa(i + 1), "output", json(Chunks(frames)[i]))
  {
    DecodeFramed(frames, rest);
    assert Chunks(frames) + [] == Chunks(frames);
    TextOfFrames(frames, false);
    TextOfFrames(frames, true);
    NothingLost(frames);
    PublishedLog(Chunks(frames), json);
  }
}
