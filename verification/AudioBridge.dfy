// The bridge as an object. Its methods are the schedules of the protocol in which
// nothing cuts in, and each is proved equal to the run of statements it stands for;
// `BridgeProtocol` quantifies over the schedules in which something does.
module WholeCalls {
  import opened BoundedLane
  import opened BridgeProtocol

  predicate Quiet<T>(s: State<T>) {
    s.clock.Resting? && s.down.filling.AtRest? && s.up.filling.AtRest?
  }

  // `_wake` on a flag found raised.
  function Woken<T>(s: State<T>): State<T> {
    if s.loopOpen
    then s.(waiting := false, handles := s.handles + 1, scheduled := s.scheduled + 1)
    else s.(waiting := false, unreachable := s.unreachable + 1)
  }

  function OnFrame<T>(s: State<T>, frame: T): State<T> {
    var counted := s.(down := Push(s.down, frame), received := s.received + 1);
    if s.waiting then Woken(counted) else counted
  }

  function NextFrame<T>(s: State<T>): State<T> {
    if s.up.queue == [] then s.(underruns := s.underruns + 1)
    else s.(up := Pop(s.up), supplied := s.supplied + 1)
  }

  // `next_downlink` from its call to its return, or to the await it sleeps in.
  function NextDownlink<T>(s: State<T>): State<T> {
    if s.down.queue != [] then s.(down := Pop(s.down), reader := Outside)
    else if s.closed then s.(reader := Outside)
    else s.(arrival := false, waiting := true, raised := s.raised + 1, reader := Asleep)
  }

  // The callback's statements, in the order `on_frame` executes them.
  lemma OnFrameIsItsStatements<T>(s: State<T>, frame: T)
    requires Quiet(s)
    ensures FinishCallback(Step(s, FrameArrives(frame))) == OnFrame(s, frame)
  {
    var checked := Step(s, FrameArrives(frame));
    var ready := if checked.down.filling.CountingDrop? then StepClock(checked) else checked;
    assert FinishCallback(checked) == FinishCallback(ready);
    var appended := StepClock(ready);
    assert appended.down == Push(s.down, frame);
    AfterAppend(appended);
  }

  // One more statement of the callback, or its last.
  lemma OneOn<T>(s: State<T>)
    requires Phased(s) && !s.clock.Resting?
    ensures Phased(StepClock(s)) && FinishCallback(s) == FinishCallback(StepClock(s))
    ensures s.clock.Recording? ==> FinishCallback(s) == s.(clock := Resting)
  {
    PhasesKept(s, ClockStep);
  }

  lemma AfterFlag<T>(s: State<T>)
    requires Phased(s) && s.clock.LoweringFlag?
    ensures FinishCallback(s) == Woken(s).(clock := Resting)
  {
    var signalling := StepClock(s);
    var recording := StepClock(signalling);
    OneOn(s);
    OneOn(signalling);
    OneOn(recording);
  }

  lemma AfterAppend<T>(s: State<T>)
    requires Phased(s) && s.clock.CountingReceived?
    ensures var counted := s.(received := s.received + 1);
      FinishCallback(s) == (if s.waiting then Woken(counted) else counted).(clock := Resting)
  {
    var testing := StepClock(s);
    var next := StepClock(testing);
    OneOn(s);
    OneOn(testing);
    if s.waiting { AfterFlag(next); } else { OneOn(next); }
  }

  lemma NextFrameIsItsStatements<T>(s: State<T>)
    requires Quiet(s)
    ensures FinishCallback(Step(s, FrameAsked)) == NextFrame(s)
  {
    var asked := Step(s, FrameAsked);
    OneOn(asked);
    OneOn(StepClock(asked));
  }

  lemma PushUplinkIsItsStatements<T>(s: State<T>, pcm: T)
    requires Quiet(s) && LoopFree(s)
    ensures var first := Step(s, PushUplink(pcm));
      var ready := if first.up.filling.CountingDrop? then Step(first, UplinkStep) else first;
      Step(ready, UplinkStep) == s.(up := Push(s.up, pcm))
  {
  }

  // The reader runs its statements until it returns or sleeps.
  function ReadOn<T>(s: State<T>): State<T>
    requires LoopFreeFor(s)
    decreases ReadLeft(s)
  {
    if s.reader.Outside? || s.reader.Asleep? then s else ReadOn(StepReader(s))
  }

  // Nothing else of the loop is running, and no look has failed yet: with nothing
  // cutting in, the look after raising the flag finds what the pop found.
  predicate LoopFreeFor<T>(s: State<T>) {
    && s.loopOpen && s.up.filling.AtRest?
    && (s.reader.Clearing? ==> s.down.queue == [] && !s.closed)
    && (s.reader.TestingClosed? ==> s.down.queue == [])
    && (s.reader.Raising? || s.reader.Looking? || s.reader.LookingClosed? || s.reader.Awaiting?
        ==> s.down.queue == [] && !s.closed && !s.arrival)
  }

  function ReadLeft<T>(s: State<T>): nat {
    match s.reader
    case LoweringAfter => 9
    case Popping => 8
    case TestingClosed => 7
    case Clearing => 6
    case Raising => 5
    case Looking => 4
    case LookingClosed => 3
    case Awaiting => 2
    case Outside => 0
    case Asleep => 0
  }

  lemma NextDownlinkIsItsStatements<T>(s: State<T>)
    requires s.loopOpen && s.up.filling.AtRest? && s.reader.Popping?
    ensures ReadOn(s) == NextDownlink(s)
  {
    var next := StepReader(s);
    assert ReadOn(s) == ReadOn(next);
    if next.reader.TestingClosed? {
      var after := StepReader(next);
      assert ReadOn(next) == ReadOn(after);
      if s.closed {
        assert ReadOn(after) == after;
      } else {
        ToSleep(after);
      }
    } else {
      assert ReadOn(next) == next;
    }
  }

  lemma ToSleep<T>(s: State<T>)
    requires LoopFreeFor(s) && s.reader.Clearing?
    ensures ReadOn(s)
         == s.(arrival := false, waiting := true, raised := s.raised + 1, reader := Asleep)
  {
    var raised := StepReader(StepReader(s));
    assert ReadOn(s) == ReadOn(StepReader(s)) == ReadOn(raised);
    var awaiting := StepReader(StepReader(raised));
    assert ReadOn(raised) == ReadOn(StepReader(raised)) == ReadOn(awaiting);
    assert ReadOn(awaiting) == StepReader(awaiting);
  }

  lemma {:induction false} ReadOnKeeps<T>(s: State<T>)
    requires LoopFreeFor(s) && Inv(s)
    ensures Inv(ReadOn(s))
    decreases ReadLeft(s)
  {
    if !s.reader.Outside? && !s.reader.Asleep? {
      StepKeeps(s, ReaderStep);
      ReadOnKeeps(StepReader(s));
    }
  }

  // A wait that is cancelled leaves its flag up: the next frame queues one signal for
  // nobody, and the frame after it finds the flag down.
  lemma ACancelledWaitCostsOneSignal<T>(s: State<T>, frame: T, another: T)
    requires Quiet(s) && Enabled(s, CancelRead) && s.waiting
    ensures var t := OnFrame(Step(s, CancelRead), frame);
      && t.reader.Outside? && !t.waiting && t.handles == s.handles + 1
      && OnFrame(t, another).handles == t.handles
  {
  }

  // So the object's methods stay inside what every interleaving keeps.
  lemma CallbacksKeep<T>(s: State<T>, frame: T)
    requires Inv(s) && Quiet(s)
    ensures Inv(OnFrame(s, frame))
    ensures Inv(NextFrame(s))
  {
    OnFrameIsItsStatements(s, frame);
    NextFrameIsItsStatements(s);
    StepKeeps(s, FrameArrives(frame));
    FinishKeeps(Step(s, FrameArrives(frame)));
    StepKeeps(s, FrameAsked);
    FinishKeeps(Step(s, FrameAsked));
  }

  lemma ReadsKeep<T>(s: State<T>)
    requires Inv(s) && LoopFree(s)
    ensures s.reader.Outside? ==> Inv(NextDownlink(s))
    ensures s.reader.Asleep? && s.arrival ==> Inv(NextDownlink(s.(waiting := false)))
  {
    if s.reader.Outside? {
      var popping := Step(s, StartRead);
      StepKeeps(s, StartRead);
      NextDownlinkIsItsStatements(popping);
      ReadOnKeeps(popping);
      assert NextDownlink(popping) == NextDownlink(s);
    } else if s.arrival {
      var popping := StepReader(StepReader(s));
      StepKeeps(s, ReaderStep);
      StepKeeps(StepReader(s), ReaderStep);
      NextDownlinkIsItsStatements(popping);
      ReadOnKeeps(popping);
      assert NextDownlink(popping) == NextDownlink(s.(waiting := false));
    }
  }
}

module Bridge {
  import opened Octets
  import opened BoundedLane
  import opened BridgeProtocol
  import opened CallbackTimings
  import WholeCalls

  const BACKLOG_FRAMES: nat := 20
  const TIMING_WINDOW: nat := 2000

  datatype Reading = Frame(pcm: Bytes) | Ended | Sleeping

  class AudioBridge {
    const backlog: nat
    const timings: Timings
    var downlink: seq<Bytes>
    var uplink: seq<Bytes>
    var arrival: bool
    var waiting: bool
    var closed: bool
    var loopOpen: bool         // the captured loop's own state
    var handles: nat           // and what is queued on it
    var received: nat
    var supplied: nat
    var underruns: nat
    var droppedDownlink: nat
    var droppedUplink: nat
    var unreachableLoop: nat
    var packetsDelivered: nat
    var partialFrames: nat
    var stopReason: string
    ghost var p: State<Bytes>

    ghost predicate Valid()
      reads this
    {
      && WholeCalls.Quiet(p) && (p.reader.Outside? || p.reader.Asleep?)
      && p.down.backlog == p.up.backlog == backlog
      && p.down.queue == downlink && p.down.dropped == droppedDownlink
      && p.up.queue == uplink && p.up.dropped == droppedUplink
      && p.arrival == arrival && p.waiting == waiting && p.closed == closed
      && p.loopOpen == loopOpen && p.handles == handles
      && p.received == received && p.supplied == supplied
      && p.underruns == underruns && p.unreachable == unreachableLoop
    }

    constructor (backlog: nat)
      ensures Valid() && p == Init(backlog) && stopReason == ""
      ensures packetsDelivered == partialFrames == 0
      ensures timings.Valid() && fresh(timings) && fresh(timings.samples)
    {
      this.backlog := backlog;
      timings := new Timings(TIMING_WINDOW);
      downlink, uplink := [], [];
      arrival, waiting, closed, loopOpen, handles := false, false, false, true, 0;
      received, supplied, underruns, unreachableLoop := 0, 0, 0, 0;
      droppedDownlink, droppedUplink, packetsDelivered, partialFrames := 0, 0, 0, 0;
      stopReason := "";
      p := Init(backlog);
    }

    // `on_frame` whole: the queue, the wake-up, and how long it took.
    method OnFrame(pcm: Bytes, elapsed: real)
      requires Valid() && timings.Valid()
      modifies this, timings, timings.samples
      ensures Valid() && timings.Valid() && p == WholeCalls.OnFrame(old(p), pcm)
      ensures timings.history == old(timings.history) + [elapsed]
      ensures stopReason == old(stopReason)
      ensures packetsDelivered == old(packetsDelivered) && partialFrames == old(partialFrames)
    {
      TakeFrame(pcm);
      timings.Record(elapsed);
    }

    // `on_frame` between its two clock readings.
    method TakeFrame(pcm: Bytes)
      requires Valid()
      modifies this
      ensures Valid() && p == WholeCalls.OnFrame(old(p), pcm)
      ensures stopReason == old(stopReason)
      ensures packetsDelivered == old(packetsDelivered) && partialFrames == old(partialFrames)
    {
      PushDownlink(pcm);
      received := received + 1;
      p := p.(received := p.received + 1);
      if waiting {
        Wake();
      }
    }

    method PushDownlink(pcm: Bytes)
      requires Valid()
      modifies this`downlink, this`droppedDownlink, this`p
      ensures Valid() && p == old(p).(down := Push(old(p).down, pcm))
    {
      if |downlink| == backlog {
        droppedDownlink := droppedDownlink + 1;
      }
      downlink := downlink + [pcm];
      if |downlink| > backlog {
        downlink := downlink[1..];
      }
      PushIs(p.down, pcm);
      p := p.(down := Push(p.down, pcm));
    }

    // The flag is lowered first, so a stalled loop collects one handle.
    method Wake()
      requires Valid()
      modifies this`waiting, this`handles, this`unreachableLoop, this`p
      ensures Valid() && p == WholeCalls.Woken(old(p)) && !waiting
      ensures handles == old(handles) + if loopOpen then 1 else 0
      ensures unreachableLoop == old(unreachableLoop) + if loopOpen then 0 else 1
    {
      waiting := false;
      if loopOpen {
        handles := handles + 1;
      } else {
        unreachableLoop := unreachableLoop + 1;
      }
      p := WholeCalls.Woken(p);
    }

    // `next_frame` whole: it takes what is queued and never waits.
    method NextFrame(elapsed: real) returns (pcm: Reading)
      requires Valid() && timings.Valid()
      modifies this, timings, timings.samples
      ensures Valid() && timings.Valid() && p == WholeCalls.NextFrame(old(p))
      ensures pcm == if old(uplink) == [] then Ended else Frame(old(uplink)[0])
      ensures timings.history == old(timings.history) + [elapsed]
      ensures stopReason == old(stopReason)
      ensures packetsDelivered == old(packetsDelivered) && partialFrames == old(partialFrames)
    {
      pcm := GiveFrame();
      timings.Record(elapsed);
    }

    // `next_frame` between its two clock readings.
    method GiveFrame() returns (pcm: Reading)
      requires Valid()
      modifies this`uplink, this`supplied, this`underruns, this`p
      ensures Valid() && p == WholeCalls.NextFrame(old(p))
      ensures pcm == if old(uplink) == [] then Ended else Frame(old(uplink)[0])
    {
      if |uplink| > 0 {
        pcm := Frame(uplink[0]);
        uplink := uplink[1..];
        supplied := supplied + 1;
      } else {
        pcm := Ended;
        underruns := underruns + 1;
      }
      p := WholeCalls.NextFrame(p);
    }

    // The reader, from its call until it returns or sleeps.
    method NextDownlink() returns (r: Reading)
      requires Valid() && loopOpen
      modifies this
      ensures Valid() && p == WholeCalls.NextDownlink(old(p))
      ensures r == if old(downlink) != [] then Frame(old(downlink)[0])
                   else if closed then Ended else Sleeping
      ensures p.down.taken == if r.Frame? then old(p.down.taken) + [r.pcm] else old(p.down.taken)
      ensures r.Frame? ==> |downlink| < |old(downlink)|
      ensures r.Sleeping? ==> p.reader.Asleep?
      ensures loopOpen == old(loopOpen) && closed == old(closed)
      ensures stopReason == old(stopReason)
      ensures packetsDelivered == old(packetsDelivered) && partialFrames == old(partialFrames)
    {
      p := WholeCalls.NextDownlink(p);
      if |downlink| > 0 {
        r := Frame(downlink[0]);
        downlink := downlink[1..];
      } else if closed {
        r := Ended;
      } else {
        arrival := false;
        waiting := true;
        r := Sleeping;
      }
    }

    // The wait is over: lower the flag and go round the loop again.
    method Resume() returns (r: Reading)
      requires Valid() && loopOpen && p.reader.Asleep? && arrival
      modifies this
      ensures Valid() && p == WholeCalls.NextDownlink(old(p).(waiting := false))
      ensures r == if old(downlink) != [] then Frame(old(downlink)[0])
                   else if closed then Ended else Sleeping
      ensures p.down.taken == if r.Frame? then old(p.down.taken) + [r.pcm] else old(p.down.taken)
      ensures r.Frame? ==> |downlink| < |old(downlink)|
      ensures r.Sleeping? ==> p.reader.Asleep?
      ensures loopOpen == old(loopOpen) && closed == old(closed)
      ensures stopReason == old(stopReason)
      ensures packetsDelivered == old(packetsDelivered) && partialFrames == old(partialFrames)
    {
      waiting := false;
      p := p.(waiting := false);
      r := NextDownlink();
    }

    method PushUplink(pcm: Bytes)
      requires Valid() && loopOpen
      modifies this`uplink, this`droppedUplink, this`p
      ensures Valid() && p == old(p).(up := Push(old(p).up, pcm))
    {
      if |uplink| == backlog {
        droppedUplink := droppedUplink + 1;
      }
      uplink := uplink + [pcm];
      if |uplink| > backlog {
        uplink := uplink[1..];
      }
      p := p.(up := Push(p.up, pcm));
    }

    method Close()
      requires Valid() && loopOpen
      modifies this
      ensures Valid() && p == old(p).(closed := true, arrival := true)
      ensures stopReason == old(stopReason)
    {
      closed := true;
      arrival := true;
      p := Step(p, CloseBridge);
    }

    method Delivered()
      requires Valid()
      modifies this`packetsDelivered
      ensures Valid() && packetsDelivered == old(packetsDelivered) + 1
    {
      packetsDelivered := packetsDelivered + 1;
    }

    method PartialFrame()
      requires Valid()
      modifies this`partialFrames
      ensures Valid() && partialFrames == old(partialFrames) + 1
    {
      partialFrames := partialFrames + 1;
    }

    // A second reason changes nothing.
    method Stopped(reason: string)
      requires Valid()
      modifies this`stopReason
      ensures Valid()
      ensures stopReason == if old(stopReason) == "" then reason else old(stopReason)
    {
      if stopReason == "" {
        stopReason := reason;
      }
    }
  }
}
