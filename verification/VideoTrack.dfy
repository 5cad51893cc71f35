// The track aiortc pulls the picture from: packets stamped on the demux thread by the
// 90 kHz clock of section 5.1 of RFC 6184, handed over through the loop's own queue of
// callbacks, and held in a bounded queue that drops the oldest.
module Stamps {

  const VIDEO_CLOCK_RATE := 90000

  // `int((time.monotonic() - origin) * VIDEO_CLOCK_RATE)`, for seconds since the origin.
  function Clock(elapsed: real): int {
    (elapsed * VIDEO_CLOCK_RATE as real).Floor
  }

  function Stamp(last: int, clock: int): int {
    if last + 1 >= clock then last + 1 else clock
  }

  // The stamps of packets that arrived at these clock readings, after `last`.
  function All(last: int, clocks: seq<int>): (stamps: seq<int>)
    ensures |stamps| == |clocks|
    decreases |clocks|
  {
    if clocks == [] then []
    else [Stamp(last, clocks[0])] + All(Stamp(last, clocks[0]), clocks[1..])
  }

  function Final(last: int, stamps: seq<int>): int {
    if stamps == [] then last else stamps[|stamps| - 1]
  }

  lemma {:induction false} OneMore(last: int, clocks: seq<int>, clock: int)
    ensures All(last, clocks + [clock])
         == All(last, clocks) + [Stamp(Final(last, All(last, clocks)), clock)]
    decreases |clocks|
  {
    if clocks != [] {
      var first := Stamp(last, clocks[0]);
      OneMore(first, clocks[1..], clock);
      assert (clocks + [clock])[1..] == clocks[1..] + [clock];
      assert Final(first, All(first, clocks[1..])) == Final(last, All(last, clocks));
    }
  }

  predicate Admissible(last: int, clocks: seq<int>, stamps: seq<int>) {
    && |stamps| == |clocks|
    && (forall i | 0 <= i < |stamps| :: last < stamps[i] && clocks[i] <= stamps[i])
    && (forall i, j | 0 <= i < j < |stamps| :: stamps[i] < stamps[j])
  }

  // They rise strictly, are never behind the arrival clock, and are the least such
  // sequence: no packet is stamped a tick later than those two rules force.
  lemma {:induction false} StampsAreLeast(last: int, clocks: seq<int>, other: seq<int>)
    requires |other| == |clocks|
    ensures Admissible(last, clocks, All(last, clocks))
    ensures Admissible(last, clocks, other) ==>
              forall i | 0 <= i < |clocks| :: All(last, clocks)[i] <= other[i]
    decreases |clocks|
  {
    if clocks != [] {
      var first := Stamp(last, clocks[0]);
      StampsAreLeast(first, clocks[1..], other[1..]);
      assert Admissible(last, clocks, other) ==> Admissible(first, clocks[1..], other[1..]);
    }
  }
}

// The track as a step system: the demux thread stamps and posts, the loop runs the
// posted callbacks in order, one reader takes, and `stop` may come at any time.
module PacketFlow {
  import Stamps

  // A packet and its presentation time, or the `None` that `stop` posts.
  datatype Item<+P> = Stamped(packet: P, ticks: int) | Sentinel

  datatype Submitting<+P> = Away | Admitted(packet: P) | Posting(item: Item<P>)
  datatype Reading<+P> = Outside | Getting | Yielding(item: Item<P>)

  datatype State<+P> = State(
    depth: nat,                 // 0 is asyncio's word for no bound
    queue: seq<Item<P>>,
    posted: seq<Item<P>>,       // callbacks on the loop, oldest first
    live: bool,
    loopOpen: bool,
    lastTicks: int,
    sent: nat,
    dropped: nat,
    demux: Submitting<P>,
    reader: Reading<P>,
    submitted: seq<Item<P>>,    // history: every packet stamped
    clocks: seq<int>,           // history: the arrival clock at each stamp
    returned: seq<Item<P>>,     // history: what `recv` returned, in order
    enqueued: nat,              // history: successful puts
    taken: nat,                 // history: successful gets
    stopSeen: bool,             // history: a stop has taken effect on the loop
    takenSince: nat)            // history: gets since then

  datatype Action<+P> =
    | Submit(packet: P)         // demux: the liveness check
    | TakeStamp(elapsed: real)  // demux: the clock reading and the stamp
    | Post                      // demux: `call_soon_threadsafe`
    | RunPosted                 // loop: the oldest callback
    | StartRecv
    | Get                       // loop: `queue.get()` on a queue with something in it
    | FinishRecv                // loop: after the yield
    | CancelRecv
    | Stop
    | LoopCloses

  function Init<P>(depth: nat): State<P> {
    State(depth, [], [], true, true, -1, 0, 0, Away, Outside, [], [], [], 0, 0, false, 0)
  }

  predicate Enabled<P>(s: State<P>, a: Action<P>) {
    match a
    case Submit(_) => s.demux.Away?
    case TakeStamp(elapsed) => s.demux.Admitted? && elapsed >= 0.0
    case Post => s.demux.Posting?
    case RunPosted => s.loopOpen && s.posted != []
    case StartRecv => s.loopOpen && s.reader.Outside?
    case Get => s.loopOpen && s.reader.Getting? && s.queue != []
    case FinishRecv => s.loopOpen && s.reader.Yielding?
    case CancelRecv => s.loopOpen && !s.reader.Outside?
    case Stop => true
    case LoopCloses => true
  }

  predicate Full<P>(s: State<P>) { s.depth > 0 && |s.queue| >= s.depth }

  // `_enqueue`: the oldest goes when there is no room.
  function Enqueue<P>(s: State<P>, item: Item<P>): State<P> {
    var room := if Full(s) then s.(queue := s.queue[1..], dropped := s.dropped + 1) else s;
    room.(queue := room.queue + [item], enqueued := s.enqueued + 1)
  }

  // `put_nowait(None)`: refused with QueueFull when there is no room.
  function PutSentinel<P>(s: State<P>): State<P> {
    var seen := s.(stopSeen := true, takenSince := if s.stopSeen then s.takenSince else 0);
    if Full(s) then seen
    else seen.(queue := s.queue + [Sentinel], enqueued := s.enqueued + 1)
  }

  function Stamp<P>(s: State<P>, elapsed: real): State<P>
    requires s.demux.Admitted?
  {
    var clock := Stamps.Clock(elapsed);
    var ticks := Stamps.Stamp(s.lastTicks, clock);
    var item := Stamped(s.demux.packet, ticks);
    s.(lastTicks := ticks, demux := Posting(item),
       submitted := s.submitted + [item], clocks := s.clocks + [clock])
  }

  // The head of the queue is taken; a sentinel or an ended track makes `recv` raise.
  function Take<P>(s: State<P>): State<P>
    requires s.queue != []
  {
    var item := s.queue[0];
    s.(queue := s.queue[1..], taken := s.taken + 1, takenSince := s.takenSince + 1,
       reader := if item.Sentinel? || !s.live then Outside else Yielding(item))
  }

  function Step<P>(s: State<P>, a: Action<P>): State<P>
    requires Enabled(s, a)
  {
    match a
    case Submit(packet) => if s.live then s.(demux := Admitted(packet)) else s
    case TakeStamp(elapsed) => Stamp(s, elapsed)
    case Post =>
      s.(demux := Away, posted := if s.loopOpen then s.posted + [s.demux.item] else s.posted)
    case RunPosted =>
      var t := s.(posted := s.posted[1..]);
      if s.posted[0].Sentinel? then PutSentinel(t) else Enqueue(t, s.posted[0])
    case StartRecv => s.(reader := Getting)
    case Get => Take(s)
    case FinishRecv =>
      s.(reader := Outside, sent := s.sent + 1, returned := s.returned + [s.reader.item])
    case CancelRecv => s.(reader := Outside)
    case Stop => s.(live := false, posted := if s.loopOpen then s.posted + [Sentinel] else s.posted)
    case LoopCloses => s.(loopOpen := false)
  }

  predicate Feasible<P>(s: State<P>, run: seq<Action<P>>)
    decreases |run|
  {
    run == [] || (Enabled(s, run[0]) && Feasible(Step(s, run[0]), run[1..]))
  }

  function Run<P>(s: State<P>, run: seq<Action<P>>): State<P>
    requires Feasible(s, run)
    decreases |run|
  {
    if run == [] then s else Run(Step(s, run[0]), run[1..])
  }

  // Everything between a stamp and a return, in the order it will come out.
  function Line<P>(s: State<P>): seq<Item<P>> {
    s.returned + (if s.reader.Yielding? then [s.reader.item] else [])
    + s.queue + s.posted + (if s.demux.Posting? then [s.demux.item] else [])
  }

  ghost predicate Ordered<P>(line: seq<Item<P>>) {
    forall i, j | 0 <= i < j < |line| && line[i].Stamped? && line[j].Stamped? ::
      line[i].ticks < line[j].ticks
  }

  // Nothing in the line but packets as they were stamped.
  ghost predicate Genuine<P>(s: State<P>, line: seq<Item<P>>) {
    forall i | 0 <= i < |line| && line[i].Stamped? :: line[i] in s.submitted
  }

  ghost predicate Stampable<P>(s: State<P>) {
    && |s.clocks| == |s.submitted|
    && (forall i | 0 <= i < |s.submitted| ::
          s.submitted[i].Stamped? && s.clocks[i] <= s.submitted[i].ticks <= s.lastTicks)
    && (forall i, j | 0 <= i < j < |s.submitted| :: s.submitted[i].ticks < s.submitted[j].ticks)
  }

  ghost predicate Tallied<P>(s: State<P>) {
    && s.enqueued == |s.queue| + s.dropped + s.taken
    && s.sent == |s.returned|
    && (s.depth > 0 ==> |s.queue| <= s.depth)
    && (s.stopSeen ==> !s.live)
    && (s.stopSeen && s.takenSince == 0 ==> s.queue != [])
    && (forall i | 0 <= i < |s.posted| :: s.posted[i].Sentinel? ==> !s.live)
    && (forall i | 0 <= i < |s.returned| :: s.returned[i].Stamped?)
    && (s.reader.Yielding? ==> s.reader.item.Stamped?)
    && (s.demux.Posting? ==> s.demux.item.Stamped?)
  }

  ghost predicate Inv<P>(s: State<P>) {
    Ordered(Line(s)) && Genuine(s, Line(s)) && Stampable(s) && Tallied(s)
  }

  // What one step does to the line: nothing, one item put in, or one gone.
  datatype Change<+P> = Same | Inserted(at: nat, item: Item<P>) | Lost(at: nat)

  ghost predicate Changed<P>(l: seq<Item<P>>, m: seq<Item<P>>, c: Change<P>) {
    match c
    case Same => m == l
    case Inserted(at, item) => at <= |l| && m == l[..at] + [item] + l[at..]
    case Lost(at) => at < |l| && m == l[..at] + l[at + 1..]
  }

  // Only a stamp puts a packet in the line, and it puts it last.
  ghost predicate Fair<P>(s: State<P>, a: Action<P>, c: Change<P>)
    requires Enabled(s, a)
  {
    c.Inserted? && c.item.Stamped? ==>
      a.TakeStamp? && c.at == |Line(s)| && c.item == Step(s, a).demux.item
  }

  function Early<P>(s: State<P>): seq<Item<P>> {
    s.returned + if s.reader.Yielding? then [s.reader.item] else []
  }

  function Late<P>(s: State<P>): seq<Item<P>> {
    if s.demux.Posting? then [s.demux.item] else []
  }

  // The line as four stretches: the head of one of them goes, or moves to the next.
  lemma HeadGoes<P>(a: seq<Item<P>>, b: seq<Item<P>>, c: seq<Item<P>>)
    requires b != []
    ensures Changed(a + b + c, a + b[1..] + c, Lost(|a|))
  {
    var l := a + b + c;
    assert l[..|a|] == a;
    assert l[|a| + 1..] == b[1..] + c;
  }

  lemma HeadMoves<P>(a: seq<Item<P>>, b: seq<Item<P>>, c: seq<Item<P>>, d: seq<Item<P>>)
    requires c != []
    ensures a + (b + [c[0]]) + c[1..] + d == a + b + c + d
  {
    assert c == [c[0]] + c[1..];
  }

  lemma Regroup<P>(a: seq<Item<P>>, b: seq<Item<P>>, c: seq<Item<P>>, d: seq<Item<P>>)
    ensures a + b + c + d == a + b + (c + d)
  {
  }

  lemma DemuxChanges<P>(s: State<P>, a: Action<P>) returns (c: Change<P>)
    requires Enabled(s, a) && (a.Submit? || a.TakeStamp? || a.Post?)
    ensures Changed(Line(s), Line(Step(s, a)), c) && Fair(s, a, c)
  {
    var t := Step(s, a);
    c := Same;
    if a.TakeStamp? {
      c := Inserted(|Line(s)|, t.demux.item);
      assert Line(t) == Line(s) + [t.demux.item];
    } else if a.Post? && !s.loopOpen {
      c := Lost(|Line(s)| - 1);
      assert Line(t) == Line(s)[..|Line(s)| - 1];
    } else {
      assert Line(t) == Line(s);
    }
  }

  lemma PostedChanges<P>(s: State<P>) returns (c: Change<P>)
    requires Enabled(s, RunPosted)
    ensures Changed(Line(s), Line(Step(s, RunPosted)), c) && !c.Inserted?
  {
    var q, posted := s.queue, s.posted;
    if !Full(s) {
      c := Same;
      HeadMoves(Early(s), q, posted, Late(s));
    } else if posted[0].Sentinel? {
      c := Lost(|Early(s) + q|);
      HeadGoes(Early(s) + q, posted, Late(s));
    } else {
      c := Lost(|Early(s)|);
      HeadMoves(Early(s), q[1..], posted, Late(s));
      Regroup(Early(s), q, posted, Late(s));
      Regroup(Early(s), q[1..], posted, Late(s));
      HeadGoes(Early(s), q, posted + Late(s));
    }
  }

  lemma GetChanges<P>(s: State<P>) returns (c: Change<P>)
    requires Enabled(s, Get)
    ensures Changed(Line(s), Line(Step(s, Get)), c) && !c.Inserted?
  {
    var t, q, rest := Step(s, Get), s.queue, s.posted + Late(s);
    assert Early(s) == s.returned;
    Regroup(s.returned, q, s.posted, Late(s));
    assert Line(s) == s.returned + q + rest;
    Regroup(Early(t), q[1..], s.posted, Late(s));
    assert Line(t) == Early(t) + q[1..] + rest;
    if t.reader.Outside? {
      c := Lost(|s.returned|);
      assert Early(t) == s.returned;
      HeadGoes(s.returned, q, rest);
    } else {
      c := Same;
      assert Early(t) == s.returned + [q[0]];
      assert s.returned + [q[0]] + q[1..] == s.returned + q;
    }
  }

  lemma ReaderChanges<P>(s: State<P>, a: Action<P>) returns (c: Change<P>)
    requires Enabled(s, a) && (a.StartRecv? || a.FinishRecv? || a.CancelRecv?)
    ensures Changed(Line(s), Line(Step(s, a)), c) && !c.Inserted?
  {
    var t, rest := Step(s, a), s.queue + s.posted + Late(s);
    Gather(Early(s), s.queue, s.posted, Late(s));
    Gather(Early(t), s.queue, s.posted, Late(s));
    if a.CancelRecv? && s.reader.Yielding? {
      c := Lost(|s.returned|);
      HeadGoes(s.returned, [s.reader.item], rest);
      assert s.returned + [s.reader.item][1..] == Early(t);
    } else {
      c := Same;
      assert Early(t) == Early(s);
    }
  }

  lemma Gather<P>(a: seq<Item<P>>, b: seq<Item<P>>, c: seq<Item<P>>, d: seq<Item<P>>)
    ensures a + b + c + d == a + (b + c + d)
  {
  }

  lemma LineChanges<P>(s: State<P>, a: Action<P>) returns (c: Change<P>)
    requires Enabled(s, a)
    ensures Changed(Line(s), Line(Step(s, a)), c) && Fair(s, a, c)
  {
    match a
    case Submit(_) => c := DemuxChanges(s, a);
    case TakeStamp(_) => c := DemuxChanges(s, a);
    case Post => c := DemuxChanges(s, a);
    case RunPosted => c := PostedChanges(s);
    case StartRecv => c := ReaderChanges(s, a);
    case Get => c := GetChanges(s);
    case FinishRecv => c := ReaderChanges(s, a);
    case CancelRecv => c := ReaderChanges(s, a);
    case Stop =>
      if s.loopOpen {
        var front := Early(s) + s.queue + s.posted;
        c := Inserted(|front|, Sentinel);
        assert Line(s)[..|front|] == front && Line(s)[|front|..] == Late(s);
        assert Line(Step(s, a)) == front + [Sentinel] + Late(s);
      } else {
        c := Same;
      }
    case LoopCloses => c := Same;
  }

  lemma OneMoreOrdered<P>(l: seq<Item<P>>, at: nat, item: Item<P>)
    requires Ordered(l) && at <= |l|
    requires item.Stamped? ==> (at == |l| && forall i | 0 <= i < |l| && l[i].Stamped? ::
                                  l[i].ticks < item.ticks)
    ensures Ordered(l[..at] + [item] + l[at..])
  {
    var m := l[..at] + [item] + l[at..];
    forall i, j | 0 <= i < j < |m| && m[i].Stamped? && m[j].Stamped?
      ensures m[i].ticks < m[j].ticks
    {
      assert i != at ==> m[i] == l[if i < at then i else i - 1];
      assert j != at ==> m[j] == l[if j < at then j else j - 1];
    }
  }

  lemma OneLessOrdered<P>(l: seq<Item<P>>, at: nat)
    requires Ordered(l) && at < |l|
    ensures Ordered(l[..at] + l[at + 1..])
  {
    var m := l[..at] + l[at + 1..];
    forall i, j | 0 <= i < j < |m| && m[i].Stamped? && m[j].Stamped?
      ensures m[i].ticks < m[j].ticks
    {
      assert m[i] == l[if i < at then i else i + 1] && m[j] == l[if j < at then j else j + 1];
    }
  }

  lemma OrderKept<P>(l: seq<Item<P>>, m: seq<Item<P>>, c: Change<P>)
    requires Ordered(l) && Changed(l, m, c)
    requires c.Inserted? && c.item.Stamped? ==>
               (c.at == |l| && forall i | 0 <= i < |l| && l[i].Stamped? ::
                  l[i].ticks < c.item.ticks)
    ensures Ordered(m)
  {
    match c
    case Same =>
    case Inserted(at, item) => OneMoreOrdered(l, at, item);
    case Lost(at) => OneLessOrdered(l, at);
  }

  lemma MembersKept<P>(l: seq<Item<P>>, m: seq<Item<P>>, c: Change<P>, i: nat)
    requires Changed(l, m, c) && i < |m|
    ensures m[i] in l || (c.Inserted? && m[i] == c.item)
  {
  }

  lemma StampableKept<P>(s: State<P>, a: Action<P>)
    requires Enabled(s, a) && Stampable(s)
    ensures Stampable(Step(s, a)) && s.submitted <= Step(s, a).submitted
  {
  }

  lemma PostedTallied<P>(s: State<P>)
    requires Enabled(s, RunPosted) && Tallied(s)
    ensures Tallied(Step(s, RunPosted))
  {
  }

  lemma TakenTallied<P>(s: State<P>)
    requires Enabled(s, Get) && Tallied(s)
    ensures Tallied(Take(s))
  {
  }

  lemma ReaderTallied<P>(s: State<P>, a: Action<P>)
    requires Enabled(s, a) && (a.StartRecv? || a.FinishRecv? || a.CancelRecv?) && Tallied(s)
    ensures Tallied(Step(s, a))
  {
  }

  lemma SenderTallied<P>(s: State<P>, a: Action<P>)
    requires Enabled(s, a) && Tallied(s)
    requires a.Submit? || a.TakeStamp? || a.Post? || a.Stop? || a.LoopCloses?
    ensures Tallied(Step(s, a))
  {
  }

  lemma TalliedKept<P>(s: State<P>, a: Action<P>)
    requires Enabled(s, a) && Tallied(s)
    ensures Tallied(Step(s, a))
  {
    match a
    case RunPosted => PostedTallied(s);
    case Get => TakenTallied(s);
    case StartRecv => ReaderTallied(s, a);
    case FinishRecv => ReaderTallied(s, a);
    case CancelRecv => ReaderTallied(s, a);
    case _ => SenderTallied(s, a);
  }

  lemma StepKeeps<P>(s: State<P>, a: Action<P>)
    requires Inv(s) && Enabled(s, a)
    ensures Inv(Step(s, a))
  {
    var t := Step(s, a);
    var c := LineChanges(s, a);
    StampableKept(s, a);
    TalliedKept(s, a);
    OrderKept(Line(s), Line(t), c);
    forall i | 0 <= i < |Line(t)| && Line(t)[i].Stamped? ensures Line(t)[i] in t.submitted {
      MembersKept(Line(s), Line(t), c, i);
    }
  }

  lemma {:induction false} RunKeeps<P>(s: State<P>, run: seq<Action<P>>)
    requires Inv(s) && Feasible(s, run)
    ensures Inv(Run(s, run))
    decreases |run|
  {
    if run != [] {
      StepKeeps(s, run[0]);
      RunKeeps(Step(s, run[0]), run[1..]);
    }
  }

  // In every run, over any number of rebuilds behind the demux thread: what `recv`
  // returns was submitted, stamped no earlier than it arrived, and comes out on a clock
  // that rises strictly, which is the order of submission.
  lemma PacketsLeaveInOrder<P>(depth: nat, run: seq<Action<P>>)
    requires Feasible(Init(depth), run)
    ensures var s := Run(Init(depth), run);
      && |s.clocks| == |s.submitted|
      && (forall i | 0 <= i < |s.returned| :: s.returned[i].Stamped? && s.returned[i] in s.submitted)
      && (forall i, j | 0 <= i < j < |s.returned| :: s.returned[i].ticks < s.returned[j].ticks)
      && (forall k | 0 <= k < |s.submitted| ::
            s.submitted[k].Stamped? && s.clocks[k] <= s.submitted[k].ticks)
      && (forall k, l | 0 <= k < l < |s.submitted| :: s.submitted[k].ticks < s.submitted[l].ticks)
  {
    RunKeeps(Init(depth), run);
    var s := Run(Init(depth), run);
    assert forall i | 0 <= i < |s.returned| :: s.returned[i] == Line(s)[i];
  }

  // ---- what is lost, and when --------------------------------------------------

  // A packet or a sentinel leaves the line unreturned in these cases alone: the loop was
  // gone, the queue held its whole depth, the track had ended, the reader was cancelled.
  predicate Loses<P>(s: State<P>, a: Action<P>) {
    match a
    case Post => !s.loopOpen
    case RunPosted => s.depth > 0 && |s.queue| == s.depth
    case Get => s.queue != [] && (s.queue[0].Sentinel? || !s.live)
    case CancelRecv => s.reader.Yielding?
    case _ => false
  }

  predicate Adds<P>(s: State<P>, a: Action<P>) { a.TakeStamp? || (a.Stop? && s.loopOpen) }

  lemma LineCount<P>(s: State<P>, a: Action<P>)
    requires Inv(s) && Enabled(s, a)
    ensures |Line(Step(s, a))|
         == |Line(s)| + (if Adds(s, a) then 1 else 0) - (if Loses(s, a) then 1 else 0)
  {
  }

  function AddedOver<P>(s: State<P>, run: seq<Action<P>>): nat
    requires Feasible(s, run)
    decreases |run|
  {
    if run == [] then 0 else (if Adds(s, run[0]) then 1 else 0) + AddedOver(Step(s, run[0]), run[1..])
  }

  function LostOver<P>(s: State<P>, run: seq<Action<P>>): nat
    requires Feasible(s, run)
    decreases |run|
  {
    if run == [] then 0 else (if Loses(s, run[0]) then 1 else 0) + LostOver(Step(s, run[0]), run[1..])
  }

  lemma {:induction false} CountThrough<P>(s: State<P>, run: seq<Action<P>>)
    requires Inv(s) && Feasible(s, run)
    ensures |Line(Run(s, run))| + LostOver(s, run) == |Line(s)| + AddedOver(s, run)
    decreases |run|
  {
    if run != [] {
      LineCount(s, run[0]);
      StepKeeps(s, run[0]);
      CountThrough(Step(s, run[0]), run[1..]);
    }
  }

  // In every run each packet stamped and each sentinel posted is on the line, which ends in
  // what `recv` returned, or was lost in one of those cases.
  lemma EveryPacketIsAccountedFor<P>(depth: nat, run: seq<Action<P>>)
    requires Feasible(Init(depth), run)
    ensures |Line(Run(Init(depth), run))| + LostOver(Init(depth), run) == AddedOver(Init(depth), run)
  {
    CountThrough(Init<P>(depth), run);
  }

  // A step drops a packet exactly when it puts one in a queue that holds its whole depth,
  // and what goes is the oldest; any other queue takes what is put in behind the rest.
  lemma OnlyAFullQueueDrops<P>(depth: nat, run: seq<Action<P>>, a: Action<P>)
    requires Feasible(Init(depth), run) && Enabled(Run(Init(depth), run), a)
    ensures var s := Run(Init(depth), run); var t := Step(s, a);
      && (t.dropped != s.dropped
          <==> a.RunPosted? && s.posted[0].Stamped? && depth > 0 && |s.queue| == depth)
      && (a.RunPosted? && s.posted[0].Stamped? ==>
            t.queue == (if depth > 0 && |s.queue| == depth then s.queue[1..] else s.queue) + [s.posted[0]])
  {
    RunKeeps(Init(depth), run);
    DepthRun(Init<P>(depth), run);
  }

  // A stop has taken effect on the loop, or its sentinel is on its way there.
  ghost predicate Announced<P>(s: State<P>) {
    !s.live && s.loopOpen ==> s.stopSeen || exists i | 0 <= i < |s.posted| :: s.posted[i].Sentinel?
  }

  lemma AnnouncedKept<P>(s: State<P>, a: Action<P>)
    requires Announced(s) && Enabled(s, a)
    ensures Announced(Step(s, a))
  {
    var t := Step(s, a);
    if !s.live && s.loopOpen && !s.stopSeen {
      var i :| 0 <= i < |s.posted| && s.posted[i].Sentinel?;
      if a.RunPosted? && i > 0 {
        assert t.posted[i - 1].Sentinel?;
      } else if !a.RunPosted? && t.loopOpen {
        assert t.posted[i].Sentinel?;
      }
    } else if a.Stop? && s.loopOpen {
      assert t.posted[|s.posted|].Sentinel?;
    }
  }

  lemma {:induction false} AnnouncedThrough<P>(s: State<P>, run: seq<Action<P>>)
    requires Announced(s) && Feasible(s, run)
    ensures Announced(Run(s, run))
    decreases |run|
  {
    if run != [] {
      AnnouncedKept(s, run[0]);
      AnnouncedThrough(Step(s, run[0]), run[1..]);
    }
  }

  // So a stop reaches a reader already waiting: once the loop has run what was posted to it,
  // a reader still in `get` finds something there, and it ends the reading.
  lemma AStopEndsTheReading<P>(depth: nat, run: seq<Action<P>>)
    requires Feasible(Init(depth), run)
    ensures var s := Run(Init(depth), run);
      !s.live && s.loopOpen && s.posted == [] ==>
        && s.stopSeen
        && (s.reader.Getting? && s.takenSince == 0 ==>
              Enabled(s, Get) && Step(s, Get).reader.Outside? && Step(s, Get).returned == s.returned)
  {
    AnnouncedThrough(Init<P>(depth), run);
    RunKeeps(Init(depth), run);
  }

  // The queue keeps its depth and every put is queued, dropped or taken; and once a stop
  // has taken effect on the loop, the next `recv` finds something to end on at once.
  lemma QueueIsConserved<P>(depth: nat, run: seq<Action<P>>)
    requires Feasible(Init(depth), run)
    ensures var s := Run(Init(depth), run);
      && (depth > 0 ==> |s.queue| <= depth)
      && s.enqueued == |s.queue| + s.dropped + s.taken
      && s.sent == |s.returned|
      && (s.stopSeen && s.takenSince == 0 && s.loopOpen && s.reader.Outside? ==>
            Enabled(Step(s, StartRecv), Get)
            && Step(Step(s, StartRecv), Get).reader.Outside?
            && Step(Step(s, StartRecv), Get).returned == s.returned)
  {
    RunKeeps(Init(depth), run);
    DepthRun(Init<P>(depth), run);
  }

  lemma {:induction false} DepthRun<P>(s: State<P>, run: seq<Action<P>>)
    requires Feasible(s, run)
    ensures Run(s, run).depth == s.depth
    decreases |run|
  {
    if run != [] {
      assert Step(s, run[0]).depth == s.depth;
      DepthRun(Step(s, run[0]), run[1..]);
    }
  }

  function Ticks<P>(items: seq<Item<P>>): seq<int>
    requires forall i | 0 <= i < |items| :: items[i].Stamped?
  {
    seq(|items|, i requires 0 <= i < |items| => items[i].ticks)
  }

  // The stamps given are the least that rise strictly and keep up with the arrival clock.
  ghost predicate LeastSoFar<P>(s: State<P>) {
    && (forall i | 0 <= i < |s.submitted| :: s.submitted[i].Stamped?)
    && Ticks(s.submitted) == Stamps.All(-1, s.clocks)
    && s.lastTicks == Stamps.Final(-1, Ticks(s.submitted))
  }

  lemma LeastKept<P>(s: State<P>, a: Action<P>)
    requires LeastSoFar(s) && Enabled(s, a)
    ensures LeastSoFar(Step(s, a))
  {
    if a.TakeStamp? {
      var t := Step(s, a);
      Stamps.OneMore(-1, s.clocks, Stamps.Clock(a.elapsed));
      assert Ticks(t.submitted) == Ticks(s.submitted) + [t.lastTicks];
    } else {
      assert Step(s, a).submitted == s.submitted && Step(s, a).clocks == s.clocks;
    }
  }

  lemma {:induction false} StampsOfARun<P>(s: State<P>, run: seq<Action<P>>)
    requires LeastSoFar(s) && Feasible(s, run)
    ensures LeastSoFar(Run(s, run))
    decreases |run|
  {
    if run != [] {
      LeastKept(s, run[0]);
      StampsOfARun(Step(s, run[0]), run[1..]);
    }
  }
}

module VideoTrack {
  import Stamps
  import opened PacketFlow

  const QUEUE_DEPTH: nat := 60

  datatype Outcome<+P> = Packet(item: Item<P>) | MediaStreamError | Blocked

  class VideoPacketTrack<P> {
    const depth: nat
    var queue: seq<Item<P>>
    var posted: seq<Item<P>>       // the owner loop's callbacks
    var live: bool
    var loopOpen: bool
    var lastTicks: int
    var sent: nat
    var dropped: nat
    ghost var s: State<P>

    ghost predicate Valid()
      reads this
    {
      && s.demux.Away?
      && s.depth == depth && s.queue == queue && s.posted == posted
      && s.live == live && s.loopOpen == loopOpen
      && s.lastTicks == lastTicks && s.sent == sent && s.dropped == dropped
    }

    constructor (depth: nat)
      ensures Valid() && s == Init(depth)
    {
      this.depth := depth;
      queue, posted, live, loopOpen := [], [], true, true;
      lastTicks, sent, dropped := -1, 0, 0;
      s := Init(depth);
    }

    // `submit` on the demux thread, uninterrupted: the stamp, then one callback posted.
    method Submit(packet: P, elapsed: real)
      requires Valid() && elapsed >= 0.0
      modifies this
      ensures Valid()
      ensures s == if old(live)
                   then Step(Step(Step(old(s), Action.Submit(packet)), TakeStamp(elapsed)), Post)
                   else old(s)
    {
      if !live {
        return;
      }
      var clock := (elapsed * Stamps.VIDEO_CLOCK_RATE as real).Floor;
      var ticks := if lastTicks + 1 >= clock then lastTicks + 1 else clock;
      lastTicks := ticks;
      var item := Stamped(packet, ticks);
      if loopOpen {
        posted := posted + [item];
      }
      s := Step(Step(Step(s, Action.Submit(packet)), TakeStamp(elapsed)), Post);
    }

    // The loop runs its oldest callback: `_enqueue`, or the put that `stop` asked for.
    method RunPosted()
      requires Valid() && loopOpen && posted != []
      modifies this
      ensures Valid() && s == Step(old(s), Action.RunPosted) && posted == old(posted)[1..]
      ensures old(posted)[0].Stamped? && depth > 0 && |old(queue)| >= depth ==>
        queue == old(queue)[1..] + [old(posted)[0]] && dropped == old(dropped) + 1
      ensures depth == 0 || |old(queue)| < depth ==>
        queue == old(queue) + [old(posted)[0]] && dropped == old(dropped)
      ensures old(posted)[0].Sentinel? && depth > 0 && |old(queue)| >= depth ==>
        queue == old(queue) && dropped == old(dropped)
    {
      var item := posted[0];
      posted := posted[1..];
      var full := depth > 0 && |queue| >= depth;
      if item.Sentinel? {
        if !full {
          queue := queue + [item];
        }
      } else {
        if full {
          queue := queue[1..];
          dropped := dropped + 1;
        }
        queue := queue + [item];
      }
      s := Step(s, Action.RunPosted);
    }

    // `recv` up to its yield, its error, or its wait for a packet.
    method Recv() returns (r: Outcome<P>)
      requires Valid() && loopOpen && s.reader.Outside?
      modifies this
      ensures Valid()
      ensures var started := Step(old(s), StartRecv);
        s == if old(queue) == [] then started else Step(started, Get)
      ensures r.Blocked? <==> old(queue) == []
      ensures r.MediaStreamError? <==> old(queue) != [] && (old(queue)[0].Sentinel? || !live)
      ensures r.Packet? ==> s.reader == Yielding(r.item) && r.item == old(queue)[0]
    {
      s := Step(s, StartRecv);
      if |queue| == 0 {
        return Blocked;
      }
      r := Taken();
    }

    // What `get` hands back, on a queue with something in it.
    method Taken() returns (r: Outcome<P>)
      requires Valid() && loopOpen && s.reader.Getting? && queue != []
      modifies this
      ensures Valid() && s == Step(old(s), Get)
      ensures r.MediaStreamError? <==> (old(queue)[0].Sentinel? || !live)
      ensures !r.Blocked? && live == old(live)
      ensures r.Packet? ==> s.reader == Yielding(r.item) && r.item == old(queue)[0]
    {
      var item := queue[0];
      queue := queue[1..];
      s := Step(s, Get);
      r := if item.Sentinel? || !live then MediaStreamError else Packet(item);
    }

    // After the yield: the packet is counted and returned.
    method Hand(item: Item<P>)
      requires Valid() && loopOpen && s.reader == Yielding(item)
      modifies this
      ensures Valid() && s == Step(old(s), FinishRecv) && s.returned == old(s).returned + [item]
    {
      sent := sent + 1;
      s := Step(s, FinishRecv);
    }

    method Stop()
      requires Valid()
      modifies this
      ensures Valid() && s == Step(old(s), Action.Stop) && !live
      ensures posted == old(posted) + if loopOpen then [Sentinel] else []
    {
      live := false;
      if loopOpen {
        posted := posted + [Sentinel];
      }
      s := Step(s, Action.Stop);
    }
  }
}
