// The wake-up protocol between pjmedia's clock thread and the one reader on the event
// loop, at statement granularity: `on_frame`, `_wake` and `next_frame` on the clock
// thread, `next_downlink`, `push_uplink` and `close` on the loop. Two statements of
// different threads interleave freely; two statements of the loop only at an await.
module BridgeProtocol {
  import opened BoundedLane

  // The statement the clock thread is about to execute.
  datatype Clock =
    | Resting
    | Filling              // inside the length check and append of `on_frame`
    | CountingReceived
    | TestingFlag
    | LoweringFlag         // first statement of `_wake`
    | Signalling           // `call_soon_threadsafe(arrival.set)`
    | CountingSupplied
    | CountingUnderrun
    | Recording            // the callback's duration, its last statement

  // The statement of `next_downlink` the reader is about to execute.
  datatype Reader =
    | Outside
    | Popping
    | TestingClosed
    | Clearing
    | Raising
    | Looking
    | LookingClosed
    | Awaiting
    | Asleep
    | LoweringAfter

  datatype State<+T> = State(
    down: Lane<T>,
    up: Lane<T>,
    clock: Clock,
    reader: Reader,
    arrival: bool,
    waiting: bool,
    closed: bool,
    loopOpen: bool,
    handles: nat,        // `arrival.set` calls queued on the loop
    received: nat,
    supplied: nat,
    underruns: nat,
    unreachable: nat,
    raised: nat,         // history: times the reader raised its flag
    scheduled: nat)      // history: handles ever queued

  datatype Action<+T> =
    | FrameArrives(frame: T)
    | FrameAsked
    | ClockStep
    | StartRead
    | ReaderStep
    | CancelRead
    | RunHandle
    | CloseBridge
    | PushUplink(pcm: T)
    | UplinkStep
    | LoopCloses

  function Init<T>(backlog: nat): State<T> {
    State(Empty(backlog), Empty(backlog), Resting, Outside,
          false, false, false, true, 0, 0, 0, 0, 0, 0, 0)
  }

  // The loop is between two of its steps: the reader is not running and neither is
  // `push_uplink`. Only then may it start something else.
  predicate LoopFree<T>(s: State<T>) {
    s.loopOpen && (s.reader.Outside? || s.reader.Asleep?) && s.up.filling.AtRest?
  }

  predicate Enabled<T>(s: State<T>, a: Action<T>) {
    match a
    case FrameArrives(_) => s.clock.Resting?
    case FrameAsked => s.clock.Resting?
    case ClockStep => !s.clock.Resting? && (s.clock.Filling? ==> !s.down.filling.AtRest?)
    case StartRead => LoopFree(s) && s.reader.Outside?
    case ReaderStep =>
      s.loopOpen && s.up.filling.AtRest? && !s.reader.Outside? && (s.reader.Asleep? ==> s.arrival)
    case CancelRead => LoopFree(s) && s.reader.Asleep?
    case RunHandle => LoopFree(s) && s.handles > 0
    case CloseBridge => LoopFree(s)
    case PushUplink(_) => LoopFree(s)
    case UplinkStep => s.loopOpen && !s.up.filling.AtRest?
    case LoopCloses => LoopFree(s)
  }

  function StepClock<T>(s: State<T>): State<T>
    requires Enabled(s, ClockStep)
  {
    match s.clock
    case Resting => s
    case Filling =>
      if s.down.filling.CountingDrop? then s.(down := CountDrop(s.down))
      else s.(down := Append(s.down), clock := CountingReceived)
    case CountingReceived => s.(received := s.received + 1, clock := TestingFlag)
    case TestingFlag => s.(clock := if s.waiting then LoweringFlag else Recording)
    case LoweringFlag => s.(waiting := false, clock := Signalling)
    case Signalling =>
      if s.loopOpen
      then s.(handles := s.handles + 1, scheduled := s.scheduled + 1, clock := Recording)
      else s.(unreachable := s.unreachable + 1, clock := Recording)
    case CountingSupplied => s.(supplied := s.supplied + 1, clock := Recording)
    case CountingUnderrun => s.(underruns := s.underruns + 1, clock := Recording)
    case Recording => s.(clock := Resting)
  }

  function StepReader<T>(s: State<T>): State<T>
    requires Enabled(s, ReaderStep)
  {
    match s.reader
    case Outside => s
    case Popping =>
      if s.down.queue == [] then s.(reader := TestingClosed)
      else s.(down := Pop(s.down), reader := Outside)
    case TestingClosed => s.(reader := if s.closed then Outside else Clearing)
    case Clearing => s.(arrival := false, reader := Raising)
    case Raising => s.(waiting := true, raised := s.raised + 1, reader := Looking)
    case Looking => s.(reader := if s.down.queue == [] then LookingClosed else LoweringAfter)
    case LookingClosed => s.(reader := if s.closed then LoweringAfter else Awaiting)
    case Awaiting => s.(reader := if s.arrival then LoweringAfter else Asleep)
    case Asleep => s.(reader := LoweringAfter)
    case LoweringAfter => s.(waiting := false, reader := Popping)
  }

  function Step<T>(s: State<T>, a: Action<T>): State<T>
    requires Enabled(s, a)
  {
    match a
    case FrameArrives(f) => s.(down := Check(s.down, f), clock := Filling)
    case FrameAsked =>
      s.(up := Pop(s.up), clock := if s.up.queue == [] then CountingUnderrun else CountingSupplied)
    case ClockStep => StepClock(s)
    case StartRead => s.(reader := Popping)
    case ReaderStep => StepReader(s)
    case CancelRead => s.(reader := Outside)   // the flag stays up behind a cancelled wait
    case RunHandle => s.(arrival := true, handles := s.handles - 1)
    case CloseBridge => s.(closed := true, arrival := true)
    case PushUplink(f) => s.(up := Check(s.up, f))
    case UplinkStep =>
      s.(up := if s.up.filling.CountingDrop? then CountDrop(s.up) else Append(s.up))
    case LoopCloses => s.(loopOpen := false)
  }

  predicate Feasible<T>(s: State<T>, run: seq<Action<T>>)
    decreases |run|
  {
    run == [] || (Enabled(s, run[0]) && Feasible(Step(s, run[0]), run[1..]))
  }

  function Run<T>(s: State<T>, run: seq<Action<T>>): State<T>
    requires Feasible(s, run)
    decreases |run|
  {
    if run == [] then s else Run(Step(s, run[0]), run[1..])
  }

  // The producer has appended a frame and will still find the flag, or has found it.
  predicate WillSignal<T>(s: State<T>) {
    || ((s.clock.CountingReceived? || s.clock.TestingFlag?) && s.waiting)
    || (s.clock.LoweringFlag? || s.clock.Signalling?)
  }

  predicate Committed<T>(s: State<T>) {
    (s.reader.LookingClosed? || s.reader.Awaiting? || s.reader.Asleep?)
  }

  // A reader that raised its flag: the flag is up, or its signal is under way.
  ghost predicate Watched<T>(s: State<T>) {
    && (s.loopOpen && (s.reader.Looking? || Committed(s)) && !s.arrival ==>
          s.waiting || s.clock.Signalling? || s.handles > 0)
    && (s.loopOpen && Committed(s) && !s.arrival && s.waiting && s.down.queue != [] ==>
          (s.clock.CountingReceived? || s.clock.TestingFlag? || s.clock.LoweringFlag?))
    && (s.reader.Awaiting? ==> !s.closed)
    && (s.reader.Asleep? && !s.arrival ==> !s.closed)
  }

  // Every handle answers a raise of its own.
  ghost predicate Metered<T>(s: State<T>) {
    && s.handles <= s.scheduled
    && s.scheduled + (if (s.clock.LoweringFlag? || s.clock.Signalling?) then 1 else 0)
                   + (if s.waiting && !s.clock.LoweringFlag? then 1 else 0) <= s.raised
  }

  ghost predicate Counted<T>(s: State<T>) {
    && |s.down.appended| == s.received + (if s.clock.CountingReceived? then 1 else 0)
    && |s.up.taken| == s.supplied + (if s.clock.CountingSupplied? then 1 else 0)
  }

  ghost predicate Phased<T>(s: State<T>) {
    && (s.clock.Filling? <==> !s.down.filling.AtRest?)
    && (!s.up.filling.AtRest? ==> (s.reader.Outside? || s.reader.Asleep?))
  }

  ghost predicate Inv<T>(s: State<T>) {
    Phased(s) && Watched(s) && Metered(s)
  }

  ghost predicate LanesInv<T>(s: State<T>) {
    Conserved(s.down) && Conserved(s.up) && Counted(s)
  }

  // A step of neither thread's own statements: something begins, turns, is cancelled or
  // closes on the loop.
  predicate Elsewhere<T>(a: Action<T>) { !a.ClockStep? && !a.ReaderStep? }

  lemma ClockWatches<T>(s: State<T>)
    requires Phased(s) && Watched(s) && Enabled(s, ClockStep)
    ensures Watched(StepClock(s))
  {
  }

  lemma ReaderWatches<T>(s: State<T>)
    requires Watched(s) && Enabled(s, ReaderStep)
    ensures Watched(StepReader(s))
  {
  }

  lemma ElsewhereWatched<T>(s: State<T>, a: Action<T>)
    requires Phased(s) && Watched(s) && Enabled(s, a) && Elsewhere(a)
    ensures Watched(Step(s, a))
  {
  }

  lemma WatchKept<T>(s: State<T>, a: Action<T>)
    requires Phased(s) && Watched(s) && Enabled(s, a)
    ensures Watched(Step(s, a))
  {
    if a.ClockStep? { ClockWatches(s); }
    else if a.ReaderStep? { ReaderWatches(s); }
    else { ElsewhereWatched(s, a); }
  }

  lemma ClockMeters<T>(s: State<T>)
    requires Metered(s) && Enabled(s, ClockStep)
    ensures Metered(StepClock(s))
  {
  }

  lemma ReaderMeters<T>(s: State<T>)
    requires Metered(s) && Enabled(s, ReaderStep)
    ensures Metered(StepReader(s))
  {
  }

  lemma ElsewhereMetered<T>(s: State<T>, a: Action<T>)
    requires Metered(s) && Enabled(s, a) && Elsewhere(a)
    ensures Metered(Step(s, a))
  {
  }

  lemma MeterKept<T>(s: State<T>, a: Action<T>)
    requires Metered(s) && Enabled(s, a)
    ensures Metered(Step(s, a))
  {
    if a.ClockStep? { ClockMeters(s); }
    else if a.ReaderStep? { ReaderMeters(s); }
    else { ElsewhereMetered(s, a); }
  }

  lemma ClockPhases<T>(s: State<T>)
    requires Phased(s) && Enabled(s, ClockStep)
    ensures Phased(StepClock(s))
  {
  }

  lemma ReaderPhases<T>(s: State<T>)
    requires Phased(s) && Enabled(s, ReaderStep)
    ensures Phased(StepReader(s))
  {
  }

  lemma ElsewherePhased<T>(s: State<T>, a: Action<T>)
    requires Phased(s) && Enabled(s, a) && Elsewhere(a)
    ensures Phased(Step(s, a))
  {
  }

  lemma PhasesKept<T>(s: State<T>, a: Action<T>)
    requires Phased(s) && Enabled(s, a)
    ensures Phased(Step(s, a))
  {
    if a.ClockStep? { ClockPhases(s); }
    else if a.ReaderStep? { ReaderPhases(s); }
    else { ElsewherePhased(s, a); }
  }

  lemma StepKeeps<T>(s: State<T>, a: Action<T>)
    requires Inv(s) && Enabled(s, a)
    ensures Inv(Step(s, a))
  {
    WatchKept(s, a);
    MeterKept(s, a);
    PhasesKept(s, a);
  }

  lemma {:induction false} RunKeeps<T>(s: State<T>, run: seq<Action<T>>)
    requires Inv(s) && Feasible(s, run)
    ensures Inv(Run(s, run))
    decreases |run|
  {
    if run != [] {
      StepKeeps(s, run[0]);
      RunKeeps(Step(s, run[0]), run[1..]);
    }
  }

  // What a step does to the lanes: nothing, or one statement of the thread that owns one.
  lemma ClockKeepsLanes<T>(s: State<T>)
    requires Conserved(s.down) && Enabled(s, ClockStep)
    ensures Conserved(StepClock(s).down) && StepClock(s).up == s.up
  {
    if s.clock.Filling? {
      if s.down.filling.CountingDrop? { CountDropKeeps(s.down); } else { AppendKeeps(s.down); }
    }
  }

  lemma ReaderKeepsLanes<T>(s: State<T>)
    requires Conserved(s.down) && Enabled(s, ReaderStep)
    ensures Conserved(StepReader(s).down) && StepReader(s).up == s.up
  {
    if s.reader.Popping? && s.down.queue != [] {
      PopKeeps(s.down);
    } else {
      assert StepReader(s).down == s.down && StepReader(s).up == s.up;
    }
  }

  lemma UplinkKeepsLanes<T>(s: State<T>, a: Action<T>)
    requires Conserved(s.up) && Enabled(s, a)
    requires a.PushUplink? || a.UplinkStep? || a.FrameAsked?
    ensures Conserved(Step(s, a).up) && Step(s, a).down == s.down
  {
    if a.PushUplink? {
      CheckKeeps(s.up, a.pcm);
    } else if a.FrameAsked? {
      PopKeeps(s.up);
    } else if s.up.filling.CountingDrop? {
      CountDropKeeps(s.up);
    } else {
      AppendKeeps(s.up);
    }
  }

  lemma LanesKept<T>(s: State<T>, a: Action<T>)
    requires Conserved(s.down) && Conserved(s.up) && Phased(s) && Enabled(s, a)
    ensures Conserved(Step(s, a).down) && Conserved(Step(s, a).up)
  {
    match a
    case FrameArrives(f) => CheckKeeps(s.down, f);
    case ClockStep => ClockKeepsLanes(s);
    case ReaderStep => ReaderKeepsLanes(s);
    case PushUplink(_) => UplinkKeepsLanes(s, a);
    case FrameAsked => UplinkKeepsLanes(s, a);
    case UplinkStep => UplinkKeepsLanes(s, a);
    case _ =>
  }

  lemma ClockCounts<T>(s: State<T>)
    requires Phased(s) && Counted(s) && Enabled(s, ClockStep)
    ensures Counted(StepClock(s))
  {
    if s.clock.Filling? && s.down.filling.Appending? {
      assert StepClock(s).down.appended == s.down.appended + [s.down.filling.frame];
    }
  }

  lemma ReaderCounts<T>(s: State<T>)
    requires Counted(s) && Enabled(s, ReaderStep)
    ensures Counted(StepReader(s))
  {
    assert StepReader(s).down.appended == s.down.appended && StepReader(s).up == s.up;
  }

  lemma CountsKept<T>(s: State<T>, a: Action<T>)
    requires Phased(s) && Counted(s) && Enabled(s, a)
    ensures Counted(Step(s, a))
  {
    match a
    case ClockStep => ClockCounts(s);
    case ReaderStep => ReaderCounts(s);
    case FrameAsked =>
      if s.up.queue != [] {
        assert Step(s, a).up.taken == s.up.taken + [s.up.queue[0]];
      }
    case _ =>
  }

  lemma {:induction false} LanesRun<T>(s: State<T>, run: seq<Action<T>>)
    requires Phased(s) && LanesInv(s) && Feasible(s, run)
    ensures LanesInv(Run(s, run))
    decreases |run|
  {
    if run != [] {
      var t := Step(s, run[0]);
      PhasesKept(s, run[0]);
      assert LanesInv(t) by {
        LanesKept(s, run[0]);
        CountsKept(s, run[0]);
      }
      LanesRun(t, run[1..]);
    }
  }

  // No lost wake-up, in every interleaving from a fresh bridge: a reader asleep with
  // the event unset is on an open bridge, and if a frame is queued for it then a signal
  // is queued on the loop or the producer is mid-frame and will queue one.
  lemma NoLostWakeUp<T>(backlog: nat, run: seq<Action<T>>)
    requires Feasible(Init(backlog), run)
    ensures var s := Run(Init(backlog), run);
      && (s.reader.Asleep? && !s.arrival ==> !s.closed)
      && (s.reader.Asleep? && !s.arrival && s.loopOpen && s.down.queue != [] ==>
            s.handles > 0 || WillSignal(s))
      && s.handles <= s.scheduled <= s.raised
  {
    RunKeeps(Init(backlog), run);
  }

  ghost predicate Accounted<T>(l: Lane<T>) {
    && |l.queue| <= l.backlog
    && |l.fates| <= |l.appended| && l.queue == l.appended[|l.fates|..]
    && l.taken == Delivered(l.appended[..|l.fates|], l.fates)
    && |l.appended| == |l.taken| + Evictions(l.fates) + |l.queue|
    && l.dropped >= Evictions(l.fates)
    && (l.filling.AtRest? ==> l.dropped == Evictions(l.fates) + l.relieved)
  }

  // Conservation in both directions, at every instant of every interleaving: the queue
  // is a suffix of what was appended, within the backlog; every appended frame was
  // taken, evicted or is queued; and the drop counter is the evictions plus exactly the
  // appends that found room after their check had seen none.
  lemma BridgeConserves<T>(backlog: nat, run: seq<Action<T>>)
    requires Feasible(Init(backlog), run)
    ensures var s := Run(Init(backlog), run);
      && Accounted(s.down) && Accounted(s.up)
      && s.down.backlog == s.up.backlog == backlog
      && (s.clock.Resting? ==> s.received == |s.down.appended| && s.supplied == |s.up.taken|)
  {
    var s := Run(Init(backlog), run);
    LanesRun(Init(backlog), run);
    BacklogRun(Init<T>(backlog), run);
    Balance(s.down);
    Balance(s.up);
  }

  lemma BacklogFixed<T>(s: State<T>, a: Action<T>)
    requires Enabled(s, a)
    ensures Step(s, a).down.backlog == s.down.backlog && Step(s, a).up.backlog == s.up.backlog
  {
    match a
    case ClockStep => assert StepClock(s).down.backlog == s.down.backlog;
    case ReaderStep => assert StepReader(s).down.backlog == s.down.backlog;
    case _ =>
  }

  lemma {:induction false} BacklogRun<T>(s: State<T>, run: seq<Action<T>>)
    requires Feasible(s, run)
    ensures Run(s, run).down.backlog == s.down.backlog
    ensures Run(s, run).up.backlog == s.up.backlog
    decreases |run|
  {
    if run != [] {
      BacklogFixed(s, run[0]);
      BacklogRun(Step(s, run[0]), run[1..]);
    }
  }

  // ---- the counters ------------------------------------------------------------

  // How often the clock thread called, and how often a callback found the flag up.
  function ArrivedIn<T>(run: seq<Action<T>>): nat {
    if run == [] then 0 else ArrivedIn(run[1..]) + if run[0].FrameArrives? then 1 else 0
  }

  function AskedIn<T>(run: seq<Action<T>>): nat {
    if run == [] then 0 else AskedIn(run[1..]) + if run[0].FrameAsked? then 1 else 0
  }

  predicate Answers<T>(s: State<T>, a: Action<T>) { a.ClockStep? && s.clock.TestingFlag? && s.waiting }

  function AnsweredOver<T>(s: State<T>, run: seq<Action<T>>): nat
    requires Feasible(s, run)
    decreases |run|
  {
    if run == [] then 0
    else (if Answers(s, run[0]) then 1 else 0) + AnsweredOver(Step(s, run[0]), run[1..])
  }

  function Arrivals<T>(s: State<T>): nat {
    s.received + if s.clock.Filling? || s.clock.CountingReceived? then 1 else 0
  }

  function Requests<T>(s: State<T>): nat {
    s.supplied + s.underruns + if s.clock.CountingSupplied? || s.clock.CountingUnderrun? then 1 else 0
  }

  function Signals<T>(s: State<T>): nat {
    s.scheduled + s.unreachable + if s.clock.LoweringFlag? || s.clock.Signalling? then 1 else 0
  }

  ghost predicate Counts<T>(s: State<T>, t: State<T>, arrived: bool, asked: bool, answered: bool) {
    && Arrivals(t) == Arrivals(s) + (if arrived then 1 else 0)
    && Requests(t) == Requests(s) + (if asked then 1 else 0)
    && Signals(t) == Signals(s) + (if answered then 1 else 0)
    && ((s.unreachable > 0 ==> !s.loopOpen) ==> (t.unreachable > 0 ==> !t.loopOpen))
  }

  lemma FillingCounts<T>(s: State<T>)
    requires Enabled(s, ClockStep) && (s.clock.Filling? || s.clock.CountingReceived?)
    ensures Counts(s, StepClock(s), false, false, false)
  {
  }

  lemma ClockCallback<T>(s: State<T>)
    requires Enabled(s, ClockStep)
    ensures Counts(s, StepClock(s), false, false, s.clock.TestingFlag? && s.waiting)
  {
    if s.clock.Filling? || s.clock.CountingReceived? { FillingCounts(s); }
  }

  lemma ReaderCallback<T>(s: State<T>)
    requires Enabled(s, ReaderStep)
    ensures Counts(s, StepReader(s), false, false, false)
  {
    assert StepReader(s).clock == s.clock && StepReader(s).unreachable == s.unreachable;
  }

  lemma OneCounted<T>(s: State<T>, a: Action<T>)
    requires Enabled(s, a)
    ensures Counts(s, Step(s, a), a.FrameArrives?, a.FrameAsked?, Answers(s, a))
  {
    match a
    case ClockStep => ClockCallback(s);
    case ReaderStep => ReaderCallback(s);
    case _ =>
  }

  lemma {:induction false} CountersRun<T>(s: State<T>, run: seq<Action<T>>)
    requires Feasible(s, run) && (s.unreachable > 0 ==> !s.loopOpen)
    ensures var t := Run(s, run);
      && Arrivals(t) == Arrivals(s) + ArrivedIn(run)
      && Requests(t) == Requests(s) + AskedIn(run)
      && Signals(t) == Signals(s) + AnsweredOver(s, run)
      && (t.unreachable > 0 ==> !t.loopOpen)
    decreases |run|
  {
    if run != [] {
      OneCounted(s, run[0]);
      CountersRun(Step(s, run[0]), run[1..]);
    }
  }

  // Every callback is counted once: a frame that arrived as received, a frame asked for as
  // supplied or as an underrun, and a flag found up as one signal, on the loop or, with the
  // loop gone, as unreachable.
  lemma EveryCallbackCounts<T>(backlog: nat, run: seq<Action<T>>)
    requires Feasible(Init(backlog), run)
    ensures var s := Run(Init(backlog), run);
      && (s.unreachable > 0 ==> !s.loopOpen)
      && (s.clock.Resting? ==>
            && s.received == ArrivedIn(run) && s.supplied + s.underruns == AskedIn(run)
            && s.scheduled + s.unreachable == AnsweredOver(Init(backlog), run))
  {
    CountersRun(Init<T>(backlog), run);
  }

  // ---- the promise behind the invariant: the sleeper is served ------------------

  // Statements left in the callback the clock thread is running.
  function Left<T>(s: State<T>): nat {
    match s.clock
    case Resting => 0
    case Filling => if s.down.filling.CountingDrop? then 8 else 7
    case CountingReceived => 6
    case TestingFlag => 5
    case LoweringFlag => 4
    case Signalling => 3
    case CountingSupplied => 3
    case CountingUnderrun => 3
    case Recording => 1
  }

  // The clock thread runs the rest of its callback with nothing cutting in.
  function FinishCallback<T>(s: State<T>): State<T>
    requires Phased(s)
    decreases Left(s)
  {
    if s.clock.Resting? then s
    else
      PhasesKept(s, ClockStep);
      ClockFrame(s);
      FinishCallback(StepClock(s))
  }

  lemma {:induction false} FinishKeeps<T>(s: State<T>)
    requires Inv(s)
    ensures Inv(FinishCallback(s))
    decreases Left(s)
  {
    if !s.clock.Resting? {
      StepKeeps(s, ClockStep);
      FinishKeeps(StepClock(s));
    }
  }

  ghost predicate SameForTheLoop<T>(s: State<T>, t: State<T>) {
    && t.arrival == s.arrival && t.reader == s.reader && t.closed == s.closed
    && t.loopOpen == s.loopOpen && t.up == s.up
  }

  lemma ClockFrame<T>(s: State<T>)
    requires Phased(s) && !s.clock.Resting?
    ensures SameForTheLoop(s, StepClock(s)) && Left(StepClock(s)) < Left(s)
  {
  }

  lemma {:induction false} FinishFrame<T>(s: State<T>)
    requires Phased(s)
    ensures SameForTheLoop(s, FinishCallback(s)) && FinishCallback(s).clock.Resting?
    decreases Left(s)
  {
    if !s.clock.Resting? {
      PhasesKept(s, ClockStep);
      ClockFrame(s);
      FinishFrame(StepClock(s));
    }
  }

  // What a reader does once its wait is over, up to the frame or the end.
  function WakeAndPop<T>(s: State<T>): State<T>
    requires s.loopOpen && s.up.filling.AtRest? && s.reader.Asleep? && s.arrival
  {
    StepReader(StepReader(StepReader(s)))
  }

  // From any reachable state with the reader asleep on a non-empty queue, letting the
  // producer finish and the loop turn is enough: the signal is there and the reader
  // comes back with the frame at the head of the queue.
  lemma SleeperIsServed<T>(s: State<T>)
    requires Inv(s) && LoopFree(s) && s.reader.Asleep? && !s.arrival
    requires FinishCallback(s).down.queue != []
    ensures var f := FinishCallback(s);
      && Enabled(f, RunHandle) && f.reader.Asleep?
      && WakeAndPop(Step(f, RunHandle)).reader == Outside
      && WakeAndPop(Step(f, RunHandle)).down.taken == f.down.taken + [f.down.queue[0]]
  {
    var f := FinishCallback(s);
    FinishKeeps(s);
    FinishFrame(s);
    assert f.handles > 0;
    var turned := Step(f, RunHandle);
    var popping := StepReader(StepReader(turned));
    assert popping.reader.Popping? && popping.down == f.down;
  }
}
