// Between the bridge and the peer connection. Going down, every frame becomes one A-law
// packet whose timestamp is the total of the payloads before it; coming up, the bytes of
// any packets are cut again into frames of the tap's length.
module Timeline {
  import opened Octets
  import opened G711

  datatype Packet = Packet(payload: seq<bv8>, pts: nat)

  function Duration(packets: seq<Packet>): nat {
    if packets == [] then 0
    else Duration(packets[..|packets| - 1]) + |packets[|packets| - 1].payload|
  }

  // What a run over these frames hands to aiortc: a frame without a whole sample is
  // skipped, every other becomes the next packet.
  function Packets(frames: seq<Bytes>): seq<Packet> {
    if frames == [] then []
    else Sent(Packets(frames[..|frames| - 1]), ToAlaw(frames[|frames| - 1]))
  }

  function Sent(packets: seq<Packet>, payload: seq<bv8>): seq<Packet> {
    if payload == [] then packets else packets + [Packet(payload, Duration(packets))]
  }

  function Partials(frames: seq<Bytes>): nat {
    if frames == [] then 0
    else
      var last := frames[|frames| - 1];
      Partials(frames[..|frames| - 1]) + if 2 * |ToAlaw(last)| != |last| then 1 else 0
  }

  function Payloads(packets: seq<Packet>): seq<bv8> {
    if packets == [] then []
    else Payloads(packets[..|packets| - 1]) + packets[|packets| - 1].payload
  }

  function Folds(frames: seq<Bytes>): seq<bv8> {
    if frames == [] then [] else Folds(frames[..|frames| - 1]) + ToAlaw(frames[|frames| - 1])
  }

  lemma OneMore(frames: seq<Bytes>, pcm: Bytes)
    ensures Packets(frames + [pcm]) == Sent(Packets(frames), ToAlaw(pcm))
    ensures Partials(frames + [pcm])
         == Partials(frames) + if 2 * |ToAlaw(pcm)| != |pcm| then 1 else 0
  {
    assert (frames + [pcm])[..|frames|] == frames;
  }

  // The partial frames are the ones that end on half a sample.
  lemma {:induction false} PartialsAreTheOdd(frames: seq<Bytes>)
    ensures Partials(frames) == |OddOnes(frames)|
  {
    if frames != [] {
      PartialsAreTheOdd(frames[..|frames| - 1]);
    }
  }

  function OddOnes(frames: seq<Bytes>): seq<Bytes> {
    if frames == [] then []
    else OddOnes(frames[..|frames| - 1])
         + if |frames[|frames| - 1]| % 2 == 1 then [frames[|frames| - 1]] else []
  }

  lemma SentAdds(packets: seq<Packet>, payload: seq<bv8>)
    ensures Duration(Sent(packets, payload)) == Duration(packets) + |payload|
    ensures Payloads(Sent(packets, payload)) == Payloads(packets) + payload
  {
    if payload != [] {
      var longer := Sent(packets, payload);
      assert longer[..|longer| - 1] == packets;
    }
  }

  // Nothing is lost, reordered or invented: the payloads end to end are the folds end to
  // end, none is empty, and each packet starts where the one before it ended.
  lemma {:induction false} PacketsAreTheFolds(frames: seq<Bytes>)
    ensures Payloads(Packets(frames)) == Folds(frames)
    ensures Duration(Packets(frames)) == |Folds(frames)|
    ensures forall i | 0 <= i < |Packets(frames)| ::
      Packets(frames)[i].payload != [] && Packets(frames)[i].pts == Duration(Packets(frames)[..i])
  {
    if frames != [] {
      var before := frames[..|frames| - 1];
      PacketsAreTheFolds(before);
      SentAdds(Packets(before), ToAlaw(frames[|frames| - 1]));
      forall i | 0 <= i < |Packets(frames)|
        ensures Packets(frames)[i].payload != []
        ensures Packets(frames)[i].pts == Duration(Packets(frames)[..i])
      {
        assert Packets(frames)[..i] == Packets(before)[..i];
        if i == |Packets(before)| { assert Packets(before)[..i] == Packets(before); }
      }
    }
  }

  // The RTP clock only moves forward.
  lemma TimestampsIncrease(frames: seq<Bytes>, i: nat, j: nat)
    requires i < j < |Packets(frames)|
    ensures Packets(frames)[i].pts + |Packets(frames)[i].payload| <= Packets(frames)[j].pts
    ensures Packets(frames)[i].pts < Packets(frames)[j].pts
  {
    var packets := Packets(frames);
    PacketsAreTheFolds(frames);
    assert packets[..i + 1][..i] == packets[..i];
    DurationGrows(packets, i + 1, j);
  }

  lemma {:induction false} DurationGrows(packets: seq<Packet>, i: nat, j: nat)
    requires i <= j <= |packets|
    ensures Duration(packets[..i]) <= Duration(packets[..j])
    decreases j
  {
    if i < j {
      assert packets[..j][..j - 1] == packets[..j - 1];
      DurationGrows(packets, i, j - 1);
    }
  }
}

module Recutting {
  import opened Octets

  // Whole frames off the front of a byte sequence, and what is left.
  function Cut(bytes: Bytes, size: nat): seq<Bytes>
    requires size > 0
    decreases |bytes|
  {
    if |bytes| < size then [] else [bytes[..size]] + Cut(bytes[size..], size)
  }

  function Rest(bytes: Bytes, size: nat): Bytes
    requires size > 0
    decreases |bytes|
  {
    if |bytes| < size then bytes else Rest(bytes[size..], size)
  }

  function Joined(frames: seq<Bytes>): Bytes {
    if frames == [] then [] else frames[0] + Joined(frames[1..])
  }

  lemma {:induction false} CutLosesNothing(bytes: Bytes, size: nat)
    requires size > 0
    ensures Joined(Cut(bytes, size)) + Rest(bytes, size) == bytes
    ensures |Rest(bytes, size)| < size
    ensures forall i | 0 <= i < |Cut(bytes, size)| :: |Cut(bytes, size)[i]| == size
    decreases |bytes|
  {
    if |bytes| >= size {
      CutLosesNothing(bytes[size..], size);
      assert Cut(bytes, size)[1..] == Cut(bytes[size..], size);
    }
  }

  // Cutting as bytes arrive is cutting them all at once.
  lemma {:induction false} CutInPieces(first: Bytes, second: Bytes, size: nat)
    requires size > 0
    ensures Cut(first + second, size) == Cut(first, size) + Cut(Rest(first, size) + second, size)
    ensures Rest(first + second, size) == Rest(Rest(first, size) + second, size)
    decreases |first|
  {
    if |first| >= size {
      assert (first + second)[..size] == first[..size];
      assert (first + second)[size..] == first[size..] + second;
      CutInPieces(first[size..], second, size);
    }
  }
}

module AudioTracks {
  import opened Octets
  import opened G711
  import opened Timeline
  import opened Recutting
  import opened BoundedLane
  import opened BridgeProtocol
  import opened Bridge

  datatype Received = Handed(packet: Packet) | MediaStreamError | Suspended

  const TRACK_ENDED := "the doorphone audio track has ended"
  const BRIDGE_CLOSED := "the doorphone audio bridge was closed"
  const TRACK_FAILED := "the doorphone audio track failed: "

  // The track's loop over its bridge, which nobody else reads.
  class DoorphoneAudioTrack {
    const bridge: AudioBridge
    var timestamp: nat
    var live: bool
    ghost var heard: seq<Bytes>       // the frames accounted for
    ghost var emitted: seq<Packet>    // every packet handed to aiortc

    ghost predicate Accounted()
      reads this, bridge
    {
      && bridge.Valid()
      && emitted == Packets(heard) && timestamp == Duration(emitted)
      && bridge.packetsDelivered == |emitted| && bridge.partialFrames == Partials(heard)
    }

    // Between two calls every frame taken off the bridge is accounted for.
    ghost predicate Valid()
      reads this, bridge
    {
      Accounted() && heard == bridge.p.down.taken
    }

    constructor (bridge: AudioBridge)
      requires bridge.Valid() && bridge.p.down.taken == []
      requires bridge.packetsDelivered == bridge.partialFrames == 0
      ensures Valid() && this.bridge == bridge && live
    {
      this.bridge := bridge;
      timestamp, live, heard, emitted := 0, true, [], [];
    }

    // The answer `r` says why a call of `recv` came back, and what it left behind.
    twostate predicate Answered(r: Received)
      reads this, bridge
    {
      && live == old(live)
      && old(heard) <= heard
      && (r.Handed? ==>
            emitted == old(emitted) + [r.packet] && bridge.stopReason == old(bridge.stopReason))
      && (!r.Handed? ==> emitted == old(emitted))
      && (r.MediaStreamError? ==> bridge.stopReason != "")
      && (old(bridge.stopReason) != "" ==> bridge.stopReason == old(bridge.stopReason))
      && (r.Suspended? ==> bridge.stopReason == old(bridge.stopReason) && bridge.p.reader.Asleep?)
    }

    // `recv`, up to its return or its first await.
    method Recv() returns (r: Received)
      requires Valid() && bridge.loopOpen
      modifies this, bridge
      ensures Valid() && Answered(r)
      ensures !live ==> r == MediaStreamError
      ensures live && r == MediaStreamError ==> bridge.closed && old(bridge.p.closed)
    {
      if !live {
        bridge.Stopped(TRACK_ENDED);
        return MediaStreamError;
      }
      var reading := bridge.NextDownlink();
      r := Carry(reading);
    }

    // The wait inside `recv` is over.
    method Resume() returns (r: Received)
      requires Valid() && bridge.loopOpen && bridge.p.reader.Asleep? && bridge.arrival
      modifies this, bridge
      ensures Valid() && Answered(r)
      ensures r == MediaStreamError ==> bridge.closed
    {
      var reading := bridge.Resume();
      r := Carry(reading);
    }

    // What a reading just taken leaves: its frame, if it has one, is still to be told.
    ghost predicate Told(reading: Reading)
      reads this, bridge
    {
      && Accounted()
      && bridge.p.down.taken == (if reading.Frame? then heard + [reading.pcm] else heard)
      && (reading.Ended? ==> bridge.closed)
      && (reading.Sleeping? ==> bridge.p.reader.Asleep?)
    }

    // One frame folded: a packet, or nothing when it carries no whole sample.
    method Fold(pcm: Bytes) returns (r: Received)
      requires Accounted() && bridge.p.down.taken == heard + [pcm]
      modifies this`timestamp, this`heard, this`emitted
      modifies bridge`packetsDelivered, bridge`partialFrames
      ensures Valid() && (r.Handed? || r.Suspended?) && heard == old(heard) + [pcm]
      ensures emitted == if r.Handed? then old(emitted) + [r.packet] else old(emitted)
    {
      var payload := ToAlaw(pcm);
      OneMore(heard, pcm);
      SentAdds(emitted, payload);
      heard, emitted := heard + [pcm], Sent(emitted, payload);
      if 2 * |payload| != |pcm| {
        bridge.PartialFrame();
      }
      if |payload| == 0 {
        return Suspended;
      }
      r := Handed(Packet(payload, timestamp));
      timestamp := timestamp + |payload|;
      bridge.Delivered();
    }

    // One turn of the loop of `_next_packet`: the frame's packet, or the next reading.
    method Turn(pcm: Bytes) returns (r: Received, next: Reading)
      requires Told(Frame(pcm)) && bridge.loopOpen
      modifies this`timestamp, this`heard, this`emitted, bridge
      ensures bridge.loopOpen && old(heard) <= heard
      ensures bridge.stopReason == old(bridge.stopReason) && bridge.closed == old(bridge.closed)
      ensures if r.Handed? then Valid() && emitted == old(emitted) + [r.packet]
              else Told(next) && emitted == old(emitted)
      ensures next.Frame? ==> |bridge.downlink| < |old(bridge.downlink)|
      ensures !next.Frame? ==> |bridge.downlink| <= |old(bridge.downlink)|
    {
      next := Sleeping;
      r := Fold(pcm);
      if !r.Handed? {
        next := bridge.NextDownlink();
      }
    }

    // The loop: skip what folds to nothing, hand over the next packet.
    method Carry(first: Reading) returns (r: Received)
      requires Told(first) && bridge.loopOpen
      modifies this, bridge
      ensures Valid() && Answered(r)
      ensures r.MediaStreamError? ==> bridge.closed
      ensures bridge.closed == old(bridge.closed)
    {
      var reading := first;
      while reading.Frame?
        invariant Told(reading) && bridge.loopOpen && old(heard) <= heard
        invariant emitted == old(emitted) && live == old(live)
        invariant bridge.stopReason == old(bridge.stopReason)
        invariant bridge.closed == old(bridge.closed)
        decreases |bridge.downlink|, reading.Frame?
      {
        r, reading := Turn(reading.pcm);
        if r.Handed? {
          return;
        }
      }
      r := Settle(reading);
    }

    // No frame left: the bridge was closed, or there is something to wait for.
    method Settle(reading: Reading) returns (r: Received)
      requires Told(reading) && !reading.Frame?
      modifies bridge`stopReason
      ensures Valid() && r == if reading.Ended? then MediaStreamError else Suspended
      ensures bridge.stopReason == if reading.Ended? && old(bridge.stopReason) == ""
                                   then BRIDGE_CLOSED else old(bridge.stopReason)
      ensures r.Suspended? ==> bridge.p.reader.Asleep?
    {
      if reading.Ended? {
        bridge.Stopped(BRIDGE_CLOSED);
        r := MediaStreamError;
      } else {
        r := Suspended;
      }
    }

    // Anything else raised inside `recv` ends the track for good, and the bridge is told.
    method Fail(failure: string)
      requires Valid()
      modifies bridge`stopReason
      ensures Valid() && bridge.stopReason != "" && emitted == old(emitted)
      ensures old(bridge.stopReason) != "" ==> bridge.stopReason == old(bridge.stopReason)
    {
      bridge.Stopped(TRACK_FAILED + failure);
    }

    method Stop()
      requires Valid()
      modifies this`live
      ensures Valid() && !live
    {
      live := false;
    }
  }

  datatype Decoded =
    | AudioFrame(format: string, layout: string, rate: nat, samples: nat, plane: Bytes)
    | SomethingElse

  function Wanted(frame: Decoded, rate: nat): bool {
    frame.AudioFrame? && frame.format == "s16" && frame.layout == "mono" && frame.rate == rate
  }

  // `bytes(plane)[: samples * 2]`
  function Carried(frame: Decoded): Bytes
    requires frame.AudioFrame?
  {
    if 2 * frame.samples <= |frame.plane| then frame.plane[..2 * frame.samples] else frame.plane
  }

  // The browser's voice, re-cut into the frames the tap wants.
  class BrowserAudioPump {
    const bridge: AudioBridge
    const frameBytes: nat
    const rate: nat
    var pending: Bytes
    var frames: nat
    ghost var carried: Bytes          // every byte received so far
    ghost var pushed: seq<Bytes>      // every frame pushed so far

    ghost predicate Valid()
      reads this, bridge
    {
      && bridge.Valid() && frameBytes > 0
      && pushed == Cut(carried, frameBytes) && pending == Rest(carried, frameBytes)
      && frames == |pushed|
    }

    constructor (bridge: AudioBridge, frameBytes: nat, rate: nat)
      requires bridge.Valid() && frameBytes > 0
      ensures Valid() && carried == [] && this.bridge == bridge
    {
      this.bridge, this.frameBytes, this.rate := bridge, frameBytes, rate;
      pending, frames, carried, pushed := [], 0, [], [];
    }

    // What is being cut: the frames pushed and those still to come make up all the bytes.
    ghost predicate Cutting()
      reads this, bridge
    {
      && bridge.Valid() && frameBytes > 0 && frames == |pushed|
      && pushed + Cut(pending, frameBytes) == Cut(carried, frameBytes)
      && Rest(pending, frameBytes) == Rest(carried, frameBytes)
    }

    // One whole frame off the front.
    method PushOne()
      requires Cutting() && bridge.loopOpen && |pending| >= frameBytes
      modifies this`pending, this`frames, this`pushed
      modifies bridge`uplink, bridge`droppedUplink, bridge`p
      ensures Cutting() && pending == old(pending)[frameBytes..]
      ensures pushed == old(pushed) + [old(pending)[..frameBytes]]
      ensures bridge.p.up.appended == old(bridge.p.up.appended) + [old(pending)[..frameBytes]]
    {
      var next := pending[..frameBytes];
      PushIs(bridge.p.up, next);
      bridge.PushUplink(next);
      assert Cut(pending, frameBytes) == [next] + Cut(pending[frameBytes..], frameBytes);
      assert pushed + ([next] + Cut(pending[frameBytes..], frameBytes))
          == (pushed + [next]) + Cut(pending[frameBytes..], frameBytes);
      pending := pending[frameBytes..];
      frames := frames + 1;
      pushed := pushed + [next];
    }

    // One decoded frame, or `UplinkFormatError` with nothing changed.
    method Take(frame: Decoded) returns (ok: bool)
      requires Valid() && bridge.loopOpen
      modifies this, bridge
      ensures Valid() && ok == Wanted(frame, rate)
      ensures ok <==> frame.AudioFrame? && frame.format == "s16" && frame.layout == "mono"
                      && frame.rate == rate
      ensures !ok ==> carried == old(carried) && bridge.p == old(bridge.p)
      ensures ok ==>
        && |carried| == |old(carried)| + (if 2 * frame.samples <= |frame.plane| then 2 * frame.samples
                                          else |frame.plane|)
        && carried == old(carried) + frame.plane[..|carried| - |old(carried)|]
      ensures exists more :: pushed == old(pushed) + more
                          && bridge.p.up.appended == old(bridge.p.up.appended) + more
    {
      ghost var more: seq<Bytes> := [];
      if !frame.AudioFrame? || frame.format != "s16" || frame.layout != "mono"
        || frame.rate != rate {
        assert pushed == pushed + more && bridge.p.up.appended == bridge.p.up.appended + more;
        return false;
      }
      CutInPieces(carried, Carried(frame), frameBytes);
      carried := carried + Carried(frame);
      pending := pending + Carried(frame);
      while |pending| >= frameBytes
        invariant Cutting() && bridge.loopOpen
        invariant pushed == old(pushed) + more
        invariant bridge.p.up.appended == old(bridge.p.up.appended) + more
        invariant carried == old(carried) + Carried(frame) && Carried(frame) <= frame.plane
        decreases |pending|
      {
        more := more + [pending[..frameBytes]];
        PushOne();
      }
      ok := true;
    }

    // Nothing is lost and every frame is whole, over any number of takes.
    lemma PumpLosesNothing()
      requires Valid()
      ensures Joined(pushed) + pending == carried && |pending| < frameBytes
      ensures forall i | 0 <= i < |pushed| :: |pushed[i]| == frameBytes
    {
      CutLosesNothing(carried, frameBytes);
    }
  }
}
