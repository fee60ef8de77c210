/** What the agent knows of the printer, from whatever slices the transport delivers. */
module Feedback {
  import opened Basics
  import opened StatusParser

  const ACK: seq<byte> := [0x01, 0x01]

  /** The bytes handed to the parser: all slices but those that are a bare acknowledgement. */
  function Parsable(slices: seq<seq<byte>>): seq<byte> {
    if slices == [] then []
    else
      var last := slices[|slices| - 1];
      Parsable(slices[..|slices| - 1]) + if last == ACK then [] else last
  }

  function AcksIn(slices: seq<seq<byte>>): nat {
    if slices == [] then 0
    else AcksIn(slices[..|slices| - 1]) + if slices[|slices| - 1] == ACK then 1 else 0
  }

  /** All frames of a list of slices. */
  function HeardFrames(slices: seq<seq<byte>>): seq<Frame> {
    Parse(Parsable(slices)).frames
  }

  class DeviceFeedback {
    const parser: StatusParser
    const state: DeviceState
    var acks: nat
    /** Every slice delivered so far. */
    ghost var slices: seq<seq<byte>>

    /** The views are functions of what was delivered. */
    ghost predicate Valid()
      reads this, parser, state
    {
      && !parser.strict && parser.Valid() && parser.stream == Parsable(slices)
      && state.frames == HeardFrames(slices)
      && state.values == LastValues(HeardFrames(slices))
      && state.printsCompleted == PrintsIn(HeardFrames(slices))
      && acks == AcksIn(slices)
    }

    constructor ()
      ensures Valid() && slices == [] && fresh(parser) && fresh(state)
    {
      ParseNothing();
      parser := new StatusParser(false);
      state := new DeviceState();
      acks, slices := 0, [];
    }

    /** Take in frames one after the other. */
    method TakeIn(frames: seq<Frame>)
      requires state.values == LastValues(state.frames) && state.printsCompleted == PrintsIn(state.frames)
      modifies state
      ensures state.frames == old(state.frames) + frames
      ensures state.values == LastValues(state.frames) && state.printsCompleted == PrintsIn(state.frames)
    {
      hide LastValues, PrintsIn;
      for i := 0 to |frames|
        invariant state.frames == old(state.frames) + frames[..i]
        invariant state.values == LastValues(state.frames) && state.printsCompleted == PrintsIn(state.frames)
      {
        state.Ingest(frames[i]);
        assert frames[..i + 1] == frames[..i] + [frames[i]];
      }
      assert frames[..|frames|] == frames;
    }

    /** `ingest`: a bare acknowledgement is counted; anything else is parsed, and every frame
        it completes is taken in. */
    method Ingest(data: seq<byte>) returns (frames: seq<Frame>)
      requires Valid()
      modifies this, parser, state
      ensures Valid() && slices == old(slices) + [data]
      ensures HeardFrames(slices) == HeardFrames(old(slices)) + frames
    {
      hide Parse, LastValues, PrintsIn, Parsable, AcksIn;
      OneMore(slices, data);
      slices := slices + [data];
      if data == ACK {
        acks := acks + 1;
        return [];
      }
      var raised;
      frames, raised := parser.Feed(data);
      TakeIn(frames);
    }
  }

  lemma OneMore(slices: seq<seq<byte>>, data: seq<byte>)
    ensures Parsable(slices + [data]) == if data == ACK then Parsable(slices) else Parsable(slices) + data
    ensures AcksIn(slices + [data]) == AcksIn(slices) + if data == ACK then 1 else 0
  {
    assert (slices + [data])[..|slices|] == slices;
    assert Parsable(slices) + [] == Parsable(slices);
  }

  // --- when cutting does not matter -------------------------------------------

  lemma {:induction false} NoAcksAside(slices: seq<seq<byte>>)
    requires ACK !in slices
    ensures Parsable(slices) == Joined(slices)
  {
    if slices != [] {
      NoAcksAside(slices[..|slices| - 1]);
    }
  }

  /** Does every bare acknowledgement come while the parser holds nothing back? */
  predicate AcksBetweenFrames(slices: seq<seq<byte>>) {
    slices == []
    || (AcksBetweenFrames(slices[..|slices| - 1])
        && (slices[|slices| - 1] == ACK ==> Parse(Parsable(slices[..|slices| - 1])).rest == []))
  }

  lemma AckIsNoise()
    ensures Parse(ACK) == Parsed([], [], 2, [])
  {
    ParseNothing();
    NoiseFirst(ACK, []);
    assert ACK + [] == ACK;
  }

  /** Setting acknowledgements aside loses nothing as long as they come between frames: the
      frames, and with them the last-value view and the completion count, and the tail held
      back depend on the stream alone, however it is cut. */
  lemma {:induction false} OnlyTheStreamMatters(slices: seq<seq<byte>>)
    requires AcksBetweenFrames(slices)
    ensures HeardFrames(slices) == Parse(Joined(slices)).frames && Parse(Parsable(slices)).rest == Parse(Joined(slices)).rest
  {
    hide Parse;
    if slices != [] {
      var before, last := slices[..|slices| - 1], slices[|slices| - 1];
      OnlyTheStreamMatters(before);
      ParseConcat(Joined(before), last);
      if last == ACK {
        AckIsNoise();
        assert [] + ACK == ACK;
        assert Parsable(before) + [] == Parsable(before);
      } else {
        ParseConcat(Parsable(before), last);
      }
    }
  }

  /** In the middle of a frame it does: a payload of 01 01 delivered as a slice of its own is
      taken for an acknowledgement, and the frame is never completed. */
  lemma PayloadTakenForAnAck()
    ensures var slices := [[STATUS_PREFIX, 0x2F], ACK];
            && HeardFrames(slices) == [] && AcksIn(slices) == 1
            && Parse(Joined(slices)).frames == [Frame(0x2F, ACK)]
  {
    var head: seq<byte> := [STATUS_PREFIX, 0x2F];
    var slices := [head, ACK];
    assert slices[..1] == [head] && [head][..0] == [];
    assert Joined([head]) == [] + head && Joined(slices) == head + ACK;
    assert Parsable([head]) == [] + head && slices[1] == ACK;
    assert Parsable(slices) == Parsable(slices[..1]) + [];
    assert Parsable(slices) == head;
    assert AcksIn([head]) == 0;
    var b := head + ACK;
    assert b[2..4] == ACK && b[4..] == [];
    ParseNothing();
    assert TryOne(b) == Complete(Frame(0x2F, ACK), 4);
  }
}
