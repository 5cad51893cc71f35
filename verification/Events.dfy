// One subscriber as a value: what it read, what waits in its bounded queue, and the part
// of the published events these two add up to. An event that finds no room closes it.
module Subscriber {

  datatype Slot<+E> = Item(event: E) | Sentinel

  datatype Sub<+E> = Sub(
    capacity: nat,
    queue: seq<Slot<E>>,   // an asyncio queue of capacity + 1 slots
    closed: bool,
    dropped: bool,
    heard: seq<E>,         // history: events fanned out to it while it was on the bus
    accepted: seq<E>,      // history: events its queue took
    read: seq<E>,          // history: events its iteration yielded
    ended: bool,           // history: its iteration returned
    overflowed: bool)      // history: some `put_nowait` found the queue full

  function New<E>(capacity: nat): Sub<E> {
    Sub(capacity, [], false, false, [], [], [], false, false)
  }

  function Put<E>(s: Sub<E>, slot: Slot<E>): Sub<E> {
    if |s.queue| >= s.capacity + 1 then s.(overflowed := true)
    else s.(queue := s.queue + [slot])
  }

  predicate Room<E>(s: Sub<E>) { !s.closed && |s.queue| < s.capacity }

  // `offer`
  function Offered<E>(s: Sub<E>, event: E): Sub<E> {
    if Room(s) then Put(s, Item(event)).(accepted := s.accepted + [event]) else s
  }

  // `close`
  function Closed<E>(s: Sub<E>, dropped: bool): Sub<E> {
    if s.closed then s else Put(s, Sentinel).(closed := true, dropped := dropped)
  }

  // What one fan-out does to a subscriber on the bus.
  function Delivered<E>(s: Sub<E>, event: E): Sub<E> {
    var told := s.(heard := s.heard + [event]);
    if Room(s) then Offered(told, event) else Closed(told, true)
  }

  // One turn of its iteration, on a queue with something in it.
  function Next<E>(s: Sub<E>): Sub<E>
    requires s.queue != []
  {
    var rest := s.(queue := s.queue[1..]);
    match s.queue[0]
    case Item(event) => rest.(read := s.read + [event])
    case Sentinel => rest.(ended := true)
  }

  function Events<E>(queue: seq<Slot<E>>): seq<E> {
    if queue == [] then []
    else (if queue[0].Item? then [queue[0].event] else []) + Events(queue[1..])
  }

  ghost predicate Inv<E>(s: Sub<E>) {
    && !s.overflowed
    && |s.queue| <= s.capacity + 1
    && (!s.closed ==> |s.queue| <= s.capacity && !s.dropped && !s.ended)
    // At most one sentinel, after every event, and exactly one per closing.
    && (forall i | 0 <= i < |s.queue| ::
          s.queue[i].Sentinel? <==> s.closed && !s.ended && i == |s.queue| - 1)
    && (s.closed && !s.ended ==> s.queue != [])
    && (s.ended ==> s.queue == [])
    && s.read + Events(s.queue) == s.accepted
    // A contiguous prefix of what was published: all of it, or all but the event that
    // found no room.
    && (if s.dropped then s.heard != [] && s.accepted == s.heard[..|s.heard| - 1]
        else s.accepted == s.heard)
  }

  lemma {:induction false} EventsAppend<E>(queue: seq<Slot<E>>, slot: Slot<E>)
    ensures Events(queue + [slot]) == Events(queue) + if slot.Item? then [slot.event] else []
  {
    if queue != [] {
      assert (queue + [slot])[1..] == queue[1..] + [slot];
      EventsAppend(queue[1..], slot);
    }
  }

  lemma DeliveredKeeps<E>(s: Sub<E>, event: E)
    requires Inv(s) && !s.closed
    ensures Inv(Delivered(s, event))
  {
    EventsAppend(s.queue, Item(event));
    EventsAppend(s.queue, Sentinel);
    assert (s.heard + [event])[..|s.heard|] == s.heard;
  }

  lemma ClosedKeeps<E>(s: Sub<E>)
    requires Inv(s)
    ensures Inv(Closed(s, false)) && Closed(s, false).closed
    ensures Closed(s, false).heard == s.heard && Closed(s, false).capacity == s.capacity
  {
    EventsAppend(s.queue, Sentinel);
  }

  lemma NextKeeps<E>(s: Sub<E>)
    requires Inv(s) && s.queue != []
    ensures Inv(Next(s))
  {
  }
}

// The bus over values: every subscriber that ever was, by number.
module BusModel {
  import opened Subscriber

  datatype Bus<+E> = Bus(
    capacity: nat,
    subs: map<nat, Sub<E>>,
    since: map<nat, nat>,      // history: how much had been fanned out when it subscribed
    closed: bool,
    loopOpen: bool,
    hops: seq<E>,              // publications from other threads, on their way
    log: seq<E>)               // history: everything fanned out, in order

  datatype Action<+E> =
    | Subscribe(id: nat)
    | Publish(event: E)
    | PublishElsewhere(event: E)
    | RunHop
    | Read(id: nat)
    | Leave(id: nat)
    | CloseBus
    | LoopCloses

  function Init<E>(capacity: nat): Bus<E> {
    Bus(capacity, map[], map[], false, true, [], [])
  }

  predicate Enabled<E>(b: Bus<E>, a: Action<E>) {
    match a
    case Subscribe(id) => b.loopOpen && id !in b.subs
    case Publish(_) => b.loopOpen
    case PublishElsewhere(_) => true
    case RunHop => b.loopOpen && b.hops != []
    case Read(id) => b.loopOpen && id in b.subs && b.subs[id].queue != []
    case Leave(id) => b.loopOpen && id in b.subs
    case CloseBus => b.loopOpen
    case LoopCloses => true
  }

  // `_fan_out`: a subscriber that is closed has left the set.
  function FanOut<E>(b: Bus<E>, event: E): Bus<E> {
    b.(log := b.log + [event],
       subs := map id | id in b.subs ::
         if b.subs[id].closed then b.subs[id] else Delivered(b.subs[id], event))
  }

  function CloseAll<E>(b: Bus<E>): Bus<E> {
    b.(closed := true, subs := map id | id in b.subs :: Closed(b.subs[id], false))
  }

  function Step<E>(b: Bus<E>, a: Action<E>): Bus<E>
    requires Enabled(b, a)
  {
    match a
    case Subscribe(id) =>
      if b.closed then b
      else b.(subs := b.subs[id := New(b.capacity)], since := b.since[id := |b.log|])
    case Publish(event) => if b.closed then b else FanOut(b, event)
    case PublishElsewhere(event) =>
      if b.closed || !b.loopOpen then b else b.(hops := b.hops + [event])
    case RunHop => FanOut(b.(hops := b.hops[1..]), b.hops[0])
    case Read(id) => b.(subs := b.subs[id := Next(b.subs[id])])
    case Leave(id) => b.(subs := b.subs[id := Closed(b.subs[id], false)])
    case CloseBus =>
      if b.closed then b
      else CloseAll(b)
    case LoopCloses => b.(loopOpen := false)
  }

  predicate Feasible<E>(b: Bus<E>, run: seq<Action<E>>)
    decreases |run|
  {
    run == [] || (Enabled(b, run[0]) && Feasible(Step(b, run[0]), run[1..]))
  }

  function Run<E>(b: Bus<E>, run: seq<Action<E>>): Bus<E>
    requires Feasible(b, run)
    decreases |run|
  {
    if run == [] then b else Run(Step(b, run[0]), run[1..])
  }

  // What a subscriber heard is a stretch of the log starting where it subscribed, and
  // while it is on the bus the stretch reaches the end.
  ghost predicate HeardFrom<E>(s: Sub<E>, log: seq<E>, from: nat) {
    && from + |s.heard| <= |log|
    && s.heard == log[from..from + |s.heard|]
    && (!s.closed ==> from + |s.heard| == |log|)
  }

  ghost predicate Heard<E>(b: Bus<E>, id: nat)
    requires id in b.subs && id in b.since
  {
    b.subs[id].capacity == b.capacity && HeardFrom(b.subs[id], b.log, b.since[id])
  }

  ghost predicate Inv<E>(b: Bus<E>) {
    && b.since.Keys == b.subs.Keys
    && (forall id | id in b.subs :: Subscriber.Inv(b.subs[id]) && Heard(b, id))
    && (b.closed ==> forall id | id in b.subs :: b.subs[id].closed)
  }

  // One more event heard, or one heard no more.
  lemma HeardOn<E>(s: Sub<E>, log: seq<E>, from: nat, event: E)
    requires Subscriber.Inv(s) && HeardFrom(s, log, from)
    ensures var t := if s.closed then s else Delivered(s, event);
      Subscriber.Inv(t) && HeardFrom(t, log + [event], from) && t.capacity == s.capacity
  {
    if !s.closed {
      DeliveredKeeps(s, event);
      assert (log + [event])[from..] == log[from..] + [event];
    }
  }

  lemma FanOutKeeps<E>(b: Bus<E>, event: E)
    requires Inv(b)
    ensures Inv(FanOut(b, event))
  {
    var c := FanOut(b, event);
    forall id | id in c.subs ensures Subscriber.Inv(c.subs[id]) && Heard(c, id) {
      assert Heard(b, id);
      HeardOn(b.subs[id], b.log, b.since[id], event);
    }
  }

  lemma ClosedEach<E>(b: Bus<E>, id: nat)
    requires id in b.subs && Subscriber.Inv(b.subs[id])
    ensures var s := CloseAll(b).subs[id];
      && Subscriber.Inv(s) && s.closed
      && s.heard == b.subs[id].heard && s.capacity == b.subs[id].capacity
  {
    ClosedKeeps(b.subs[id]);
  }

  lemma CloseKeeps<E>(b: Bus<E>)
    requires Inv(b)
    ensures Inv(CloseAll(b))
  {
    var c := CloseAll(b);
    forall id | id in c.subs
      ensures Subscriber.Inv(c.subs[id]) && Heard(c, id) && c.subs[id].closed
    {
      ClosedEach(b, id);
      assert Heard(b, id);
    }
  }

  lemma SubscribeKeeps<E>(b: Bus<E>, id: nat)
    requires Inv(b) && Enabled(b, Subscribe(id))
    ensures Inv(Step(b, Subscribe(id)))
  {
    if !b.closed {
      var c := Step(b, Subscribe(id));
      forall i | i in c.subs ensures Subscriber.Inv(c.subs[i]) && Heard(c, i) {
        if i != id { assert Heard(b, i); }
      }
    }
  }

  lemma QuietKeeps<E>(b: Bus<E>, c: Bus<E>)
    requires Inv(b) && c == b.(hops := c.hops, loopOpen := c.loopOpen)
    ensures Inv(c)
  {
    forall id | id in c.subs ensures Heard(c, id) {
      assert Heard(b, id);
    }
  }

  lemma OneKeeps<E>(b: Bus<E>, id: nat, s: Sub<E>)
    requires Inv(b) && id in b.subs && Subscriber.Inv(s)
    requires s.heard == b.subs[id].heard && s.capacity == b.capacity
    requires b.subs[id].closed ==> s.closed
    ensures Inv(b.(subs := b.subs[id := s]))
  {
    var c := b.(subs := b.subs[id := s]);
    forall i | i in c.subs ensures Subscriber.Inv(c.subs[i]) && Heard(c, i) {
      assert Heard(b, i);
    }
  }

  lemma StepKeeps<E>(b: Bus<E>, a: Action<E>)
    requires Inv(b) && Enabled(b, a)
    ensures Inv(Step(b, a))
  {
    match a
    case Subscribe(id) => SubscribeKeeps(b, id);
    case Publish(event) => FanOutKeeps(b, event);
    case RunHop =>
      QuietKeeps(b, b.(hops := b.hops[1..]));
      FanOutKeeps(b.(hops := b.hops[1..]), b.hops[0]);
    case Read(id) => LeaverKeeps(b, id);
    case Leave(id) => LeaverKeeps(b, id);
    case CloseBus => CloseKeeps(b);
    case _ => QuietKeeps(b, Step(b, a));
  }

  lemma LeaverKeeps<E>(b: Bus<E>, id: nat)
    requires Inv(b) && id in b.subs
    ensures Inv(b.(subs := b.subs[id := Closed(b.subs[id], false)]))
    ensures b.subs[id].queue != [] ==> Inv(b.(subs := b.subs[id := Next(b.subs[id])]))
  {
    assert Heard(b, id);
    ClosedKeeps(b.subs[id]);
    OneKeeps(b, id, Closed(b.subs[id], false));
    if b.subs[id].queue != [] {
      NextKeeps(b.subs[id]);
      OneKeeps(b, id, Next(b.subs[id]));
    }
  }

  lemma {:induction false} RunKeeps<E>(b: Bus<E>, run: seq<Action<E>>)
    requires Inv(b) && Feasible(b, run)
    ensures Inv(Run(b, run))
    decreases |run|
  {
    if run != [] {
      StepKeeps(b, run[0]);
      RunKeeps(Step(b, run[0]), run[1..]);
    }
  }

  // In every run and for every subscriber: no put overflows, the queue stays within
  // capacity + 1, what it accepted is a contiguous stretch of what was published from
  // the moment it subscribed, whole unless it was dropped, and what it read and what it
  // still holds are that stretch in order.
  lemma SubscribersAreServed<E>(capacity: nat, run: seq<Action<E>>, id: nat)
    requires Feasible(Init(capacity), run)
    ensures var b := Run(Init(capacity), run); id in b.subs ==>
      var s := b.subs[id];
      && !s.overflowed && |s.queue| <= s.capacity + 1
      && id in b.since && b.since[id] + |s.accepted| <= |b.log|
      && s.accepted == b.log[b.since[id]..b.since[id] + |s.accepted|]
      && (!s.closed ==> s.accepted == b.log[b.since[id]..])
      && s.read + Events(s.queue) == s.accepted
      // At most one sentinel, after every event: there exactly from the closing until the
      // iteration ends on it.
      && (forall i | 0 <= i < |s.queue| ::
            s.queue[i].Sentinel? <==> s.closed && !s.ended && i == |s.queue| - 1)
      && (s.ended ==> s.queue == [])
  {
    RunKeeps(Init(capacity), run);
    var b := Run(Init(capacity), run);
    if id in b.subs {
      assert Heard(b, id);
      Served(b.subs[id], b.log, b.since[id]);
    }
  }

  lemma Served<E>(s: Sub<E>, log: seq<E>, from: nat)
    requires Subscriber.Inv(s) && HeardFrom(s, log, from)
    ensures from + |s.accepted| <= |log| && s.accepted == log[from..from + |s.accepted|]
    ensures !s.closed ==> s.accepted == log[from..]
  {
  }

  // ---- who is dropped ----------------------------------------------------------

  // Events its queue took and its iteration has not yielded yet.
  function Unread<E>(s: Sub<E>): int { |s.accepted| - |s.read| }

  predicate FansOut<E>(b: Bus<E>, a: Action<E>) { (a.Publish? && !b.closed) || a.RunHop? }

  // An event is fanned out to a subscriber that is open and has all its room taken.
  predicate Overruns<E>(b: Bus<E>, a: Action<E>, id: nat) {
    FansOut(b, a) && id in b.subs && !b.subs[id].closed && Unread(b.subs[id]) == b.capacity
  }

  lemma {:induction false} AllItems<E>(queue: seq<Slot<E>>)
    requires forall i | 0 <= i < |queue| :: queue[i].Item?
    ensures |Events(queue)| == |queue|
  {
    if queue != [] { AllItems(queue[1..]); }
  }

  lemma UnreadIsQueued<E>(s: Sub<E>)
    requires Subscriber.Inv(s) && !s.closed
    ensures Unread(s) == |s.queue| <= s.capacity
  {
    AllItems(s.queue);
  }

  function Fanned<E>(b: Bus<E>, a: Action<E>): E
    requires Enabled(b, a) && FansOut(b, a)
  {
    if a.Publish? then a.event else b.hops[0]
  }

  lemma DeliveredDrops<E>(s: Sub<E>, event: E)
    requires Subscriber.Inv(s) && !s.closed
    ensures Delivered(s, event).dropped <==> Unread(s) == s.capacity
    ensures Unread(s) != s.capacity ==> Delivered(s, event).accepted == s.accepted + [event]
  {
    UnreadIsQueued(s);
  }

  // A step drops a subscriber exactly when it overruns it; any other event fanned out to an
  // open one is accepted.
  lemma DroppedExactlyWhen<E>(b: Bus<E>, a: Action<E>, id: nat)
    requires Inv(b) && Enabled(b, a) && id in b.subs
    ensures id in Step(b, a).subs
    ensures Step(b, a).subs[id].dropped <==> b.subs[id].dropped || Overruns(b, a, id)
    ensures FansOut(b, a) && !b.subs[id].closed && !Overruns(b, a, id) ==>
      Step(b, a).subs[id].accepted == b.subs[id].accepted + [Fanned(b, a)]
  {
    assert Heard(b, id);
    if FansOut(b, a) && !b.subs[id].closed { DeliveredDrops(b.subs[id], Fanned(b, a)); }
  }

  // Once on the bus it was never found without room.
  predicate NeverOverrun<E>(b: Bus<E>, run: seq<Action<E>>, id: nat)
    requires Feasible(b, run)
    decreases |run|
  {
    run == [] || (!Overruns(b, run[0], id) && NeverOverrun(Step(b, run[0]), run[1..], id))
  }

  lemma {:induction false} DroppedThrough<E>(b: Bus<E>, run: seq<Action<E>>, id: nat)
    requires Inv(b) && Feasible(b, run)
    ensures Inv(Run(b, run))
    ensures (id in b.subs ==> id in Run(b, run).subs)
    ensures id in Run(b, run).subs ==>
      (Run(b, run).subs[id].dropped <==> (id in b.subs && b.subs[id].dropped) || !NeverOverrun(b, run, id))
    decreases |run|
  {
    if run != [] {
      var c := Step(b, run[0]);
      StepKeeps(b, run[0]);
      if id in b.subs { DroppedExactlyWhen(b, run[0], id); }
      DroppedThrough(c, run[1..], id);
      if id !in b.subs && id in c.subs { assert !c.subs[id].dropped; }
    }
  }

  // Over every run: a subscriber is dropped exactly when some event was fanned out to it
  // with `capacity` events unread. One that never was accepted every event fanned out
  // while it was on the bus.
  lemma OnlyAStalledReaderIsDropped<E>(capacity: nat, run: seq<Action<E>>, id: nat)
    requires Feasible(Init(capacity), run) && id in Run(Init(capacity), run).subs
    ensures var b := Run(Init(capacity), run); var s := b.subs[id];
      && (s.dropped <==> !NeverOverrun(Init(capacity), run, id))
      && (!s.dropped ==> s.accepted == s.heard)
  {
    DroppedThrough(Init(capacity), run, id);
    assert Heard(Run(Init(capacity), run), id);
  }

  // A subscriber comes by subscribing to an open bus, with an empty queue and nothing of what
  // went out before it.
  lemma SubscribedExactlyWhen<E>(b: Bus<E>, a: Action<E>, id: nat)
    requires Inv(b) && Enabled(b, a) && id !in b.subs
    ensures id in Step(b, a).subs <==> a == Subscribe(id) && !b.closed
    ensures id in Step(b, a).subs ==>
      && Step(b, a).subs[id] == New(b.capacity) && id in Step(b, a).since
      && Step(b, a).since[id] == |b.log|
  {
  }

  // A subscriber is closed by its own leaving, by the bus, or by being overrun, and by
  // nothing else; and in the first two cases it is not told it was dropped.
  lemma ClosedExactlyWhen<E>(b: Bus<E>, a: Action<E>, id: nat)
    requires Inv(b) && Enabled(b, a) && id in b.subs && !b.subs[id].closed
    ensures id in Step(b, a).subs
    ensures Step(b, a).subs[id].closed <==> a == Leave(id) || a.CloseBus? || Overruns(b, a, id)
  {
    assert Heard(b, id);
    if FansOut(b, a) { DeliveredDrops(b.subs[id], Fanned(b, a)); }
  }

  // ---- what goes out -----------------------------------------------------------

  function FannedOver<E>(b: Bus<E>, run: seq<Action<E>>): seq<E>
    requires Feasible(b, run)
    decreases |run|
  {
    if run == [] then []
    else (if FansOut(b, run[0]) then [Fanned(b, run[0])] else []) + FannedOver(Step(b, run[0]), run[1..])
  }

  // From another thread, on a bus and a loop still open.
  function Sent<E>(b: Bus<E>, a: Action<E>): seq<E> {
    if a.PublishElsewhere? && !b.closed && b.loopOpen then [a.event] else []
  }

  function Hopped<E>(b: Bus<E>, a: Action<E>): seq<E>
    requires Enabled(b, a)
  {
    if a.RunHop? then [b.hops[0]] else []
  }

  function SentOver<E>(b: Bus<E>, run: seq<Action<E>>): seq<E>
    requires Feasible(b, run)
    decreases |run|
  {
    if run == [] then [] else Sent(b, run[0]) + SentOver(Step(b, run[0]), run[1..])
  }

  function HoppedOver<E>(b: Bus<E>, run: seq<Action<E>>): seq<E>
    requires Feasible(b, run)
    decreases |run|
  {
    if run == [] then [] else Hopped(b, run[0]) + HoppedOver(Step(b, run[0]), run[1..])
  }

  lemma {:induction false} LogGoesOut<E>(b: Bus<E>, run: seq<Action<E>>)
    requires Feasible(b, run)
    ensures Run(b, run).log == b.log + FannedOver(b, run)
    decreases |run|
  {
    if run != [] {
      HopsMove(b, run[0]);
      LogGoesOut(Step(b, run[0]), run[1..]);
    }
  }

  lemma {:induction false} Closings<E>(b: Bus<E>, run: seq<Action<E>>)
    requires Feasible(b, run)
    ensures Run(b, run).closed <==> b.closed || CloseBus in run
    ensures Run(b, run).loopOpen <==> b.loopOpen && LoopCloses !in run
    decreases |run|
  {
    if run != [] {
      assert Step(b, run[0]).closed == (b.closed || run[0] == CloseBus);
      assert Step(b, run[0]).loopOpen == (b.loopOpen && run[0] != LoopCloses);
      Closings(Step(b, run[0]), run[1..]);
    }
  }

  lemma {:induction false} HopsGoOut<E>(b: Bus<E>, run: seq<Action<E>>)
    requires Feasible(b, run)
    ensures b.hops + SentOver(b, run) == HoppedOver(b, run) + Run(b, run).hops
    decreases |run|
  {
    if run != [] {
      var c := Step(b, run[0]);
      HopsGoOut(c, run[1..]);
      HopsMove(b, run[0]);
      Regroup(b.hops, Sent(b, run[0]), SentOver(c, run[1..]));
      Regroup(Hopped(b, run[0]), c.hops, SentOver(c, run[1..]));
      Regroup(Hopped(b, run[0]), HoppedOver(c, run[1..]), Run(c, run[1..]).hops);
    }
  }

  lemma Regroup<E>(a: seq<E>, b: seq<E>, c: seq<E>)
    ensures a + (b + c) == (a + b) + c
  {
  }

  lemma HopsMove<E>(b: Bus<E>, a: Action<E>)
    requires Enabled(b, a)
    ensures b.hops + Sent(b, a) == Hopped(b, a) + Step(b, a).hops
    ensures Step(b, a).log == b.log + if FansOut(b, a) then [Fanned(b, a)] else []
  {
    if a.RunHop? { assert b.hops == [b.hops[0]] + b.hops[1..]; }
  }

  // In every run: what went out is each publication on the loop and each hop as it was run,
  // in that order; and a publication from another thread hops once, in its turn, or is still
  // on its way.
  lemma EveryPublicationGoesOut<E>(capacity: nat, run: seq<Action<E>>)
    requires Feasible(Init(capacity), run)
    ensures var b := Run(Init(capacity), run);
      && (b.closed <==> CloseBus in run) && (b.loopOpen <==> LoopCloses !in run)
      && b.log == FannedOver(Init(capacity), run)
      && SentOver(Init(capacity), run) == HoppedOver(Init(capacity), run) + b.hops
  {
    LogGoesOut(Init<E>(capacity), run);
    HopsGoOut(Init<E>(capacity), run);
    Closings(Init<E>(capacity), run);
  }

  // ---- what is read ------------------------------------------------------------

  function ReadsIn<E>(run: seq<Action<E>>, id: nat): nat {
    if run == [] then 0 else ReadsIn(run[1..], id) + if run[0] == Read(id) then 1 else 0
  }

  // Slots its iteration took: an event each, and the sentinel it ended on.
  function Turned<E>(b: Bus<E>, id: nat): nat {
    if id in b.subs then Turns(b.subs[id]) else 0
  }

  function Turns<E>(s: Sub<E>): nat { |s.read| + if s.ended then 1 else 0 }

  lemma OthersTurnNothing<E>(s: Sub<E>, event: E)
    ensures Turns(Delivered(s, event)) == Turns(Closed(s, false)) == Turns(s)
  {
  }

  lemma NextTurns<E>(s: Sub<E>)
    requires Subscriber.Inv(s) && s.queue != []
    ensures Turns(Next(s)) == Turns(s) + 1
  {
  }

  lemma OneTurn<E>(b: Bus<E>, a: Action<E>, id: nat)
    requires Inv(b) && Enabled(b, a)
    ensures Turned(Step(b, a), id) == Turned(b, id) + if a == Read(id) then 1 else 0
  {
    if id in b.subs {
      match a
      case Publish(event) => OthersTurnNothing(b.subs[id], event);
      case RunHop => OthersTurnNothing(b.subs[id], b.hops[0]);
      case Read(other) => if other == id { NextTurns(b.subs[id]); }
      case _ =>
    }
  }

  lemma {:induction false} TurnsThrough<E>(b: Bus<E>, run: seq<Action<E>>, id: nat)
    requires Inv(b) && Feasible(b, run)
    ensures Turned(Run(b, run), id) == Turned(b, id) + ReadsIn(run, id)
    decreases |run|
  {
    if run != [] {
      OneTurn(b, run[0], id);
      StepKeeps(b, run[0]);
      TurnsThrough(Step(b, run[0]), run[1..], id);
    }
  }

  // In every run each turn of an iteration yields one event, and the last one ends it.
  lemma EveryTurnYields<E>(capacity: nat, run: seq<Action<E>>, id: nat)
    requires Feasible(Init(capacity), run)
    ensures Turned(Run(Init(capacity), run), id) == ReadsIn(run, id)
  {
    TurnsThrough(Init<E>(capacity), run, id);
  }

  // ---- independence ------------------------------------------------------------

  // The same run with everything `other` did, read or left, taken out of it.
  function Without<E>(run: seq<Action<E>>, other: nat): seq<Action<E>> {
    if run == [] then []
    else
      var rest := Without(run[1..], other);
      if (run[0].Read? || run[0].Leave?) && run[0].id == other then rest else [run[0]] + rest
  }

  ghost predicate Alike<E>(b: Bus<E>, c: Bus<E>, other: nat) {
    && b.subs.Keys == c.subs.Keys
    && (forall id | id in b.subs && id != other :: b.subs[id] == c.subs[id])
    && b.closed == c.closed && b.loopOpen == c.loopOpen && b.hops == c.hops
    && b.capacity == c.capacity && b.log == c.log && b.since == c.since
  }

  lemma AlikeStep<E>(b: Bus<E>, c: Bus<E>, other: nat, a: Action<E>)
    requires Alike(b, c, other) && Enabled(b, a)
    ensures if (a.Read? || a.Leave?) && a.id == other then Alike(Step(b, a), c, other)
            else Enabled(c, a) && Alike(Step(b, a), Step(c, a), other)
  {
  }

  // What a subscriber gets depends on the publications and on its own reads alone:
  // whether another one reads, stalls, is dropped or leaves makes no difference to it.
  lemma {:induction false} StallsHarmNobodyElse<E>(
      b: Bus<E>, c: Bus<E>, run: seq<Action<E>>, other: nat)
    requires Alike(b, c, other) && Feasible(b, run)
    ensures Feasible(c, Without(run, other))
    ensures Alike(Run(b, run), Run(c, Without(run, other)), other)
    decreases |run|
  {
    if run != [] {
      AlikeStep(b, c, other, run[0]);
      var rest := Without(run[1..], other);
      if (run[0].Read? || run[0].Leave?) && run[0].id == other {
        StallsHarmNobodyElse(Step(b, run[0]), c, run[1..], other);
      } else {
        StallsHarmNobodyElse(Step(b, run[0]), Step(c, run[0]), run[1..], other);
        assert Without(run, other)[1..] == rest;
      }
    }
  }
}

module EventStream {
  import opened Subscriber

  const DEFAULT_CAPACITY: nat := 64

  class Subscription<E(==)> {
    const capacity: nat
    var queue: seq<Slot<E>>
    var closed: bool
    var dropped: bool
    ghost var v: Sub<E>

    ghost predicate Valid()
      reads this
    {
      && v.capacity == capacity && v.queue == queue && v.closed == closed && v.dropped == dropped
      && Subscriber.Inv(v)
    }

    constructor (capacity: nat)
      ensures Valid() && v == New(capacity)
    {
      this.capacity := capacity;
      queue, closed, dropped := [], false, false;
      v := New(capacity);
    }

    // One more slot, when it is open and below its capacity.
    method Offer(event: E) returns (ok: bool)
      requires Valid()
      modifies this
      ensures ok <==> !old(closed) && |old(queue)| < capacity
      ensures queue == old(queue) + if ok then [Item(event)] else []
      ensures v == Offered(old(v), event)
      ensures queue == v.queue && closed == v.closed && dropped == v.dropped && v.capacity == capacity
    {
      if closed || |queue| >= capacity {
        return false;
      }
      queue := queue + [Item(event)];
      v := Offered(v, event);
      ok := true;
    }

    // One sentinel goes in behind whatever is queued, the first time only.
    method Close(drop: bool)
      requires v.capacity == capacity && v.queue == queue && v.closed == closed && v.dropped == dropped
      requires !closed ==> |queue| <= capacity
      modifies this
      ensures closed && v == Closed(old(v), drop)
      ensures queue == old(queue) + (if old(closed) then [] else [Sentinel])
      ensures dropped == if old(closed) then old(dropped) else drop
      ensures queue == v.queue && closed == v.closed && dropped == v.dropped && v.capacity == capacity
    {
      if closed {
        return;
      }
      closed := true;
      dropped := drop;
      queue := queue + [Sentinel];
      v := Closed(v, drop);
    }

    // One turn of the iteration; no event when it is over.
    method Next() returns (slot: Slot<E>)
      requires Valid() && queue != []
      modifies this
      ensures Valid() && v == Subscriber.Next(old(v))
      ensures slot == old(queue)[0] && queue == old(queue)[1..]
    {
      slot := queue[0];
      queue := queue[1..];
      NextKeeps(v);
      v := Subscriber.Next(v);
    }
  }

  class EventBus<E(==)> {
    const capacity: nat
    var subscribers: set<Subscription<E>>
    var closed: bool
    var loopOpen: bool
    var hops: seq<E>              // publications from other threads, on their way

    ghost predicate Valid()
      reads this, subscribers
    {
      forall s | s in subscribers :: s.Valid() && !s.closed && s.capacity == capacity
    }

    constructor (capacity: nat)
      ensures Valid() && subscribers == {} && !closed && this.capacity == capacity
      ensures loopOpen && hops == []
    {
      this.capacity, subscribers, closed := capacity, {}, false;
      loopOpen, hops := true, [];
    }

    // A subscription of its own, or none once the bus is closed.
    method Subscribe() returns (s: Subscription?<E>)
      requires Valid()
      modifies this`subscribers
      ensures Valid()
      ensures (s == null) == closed
      ensures s == null ==> subscribers == old(subscribers)
      ensures s != null ==> fresh(s) && s.v == New(capacity) && subscribers == old(subscribers) + {s}
    {
      if closed {
        return null;
      }
      var made := new Subscription(capacity);
      subscribers := subscribers + {made};
      s := made;
    }

    // Every subscriber's new state is a function of its own old state and the event; those
    // this closes are subscribed no more.
    method FanOut(event: E)
      requires Valid()
      modifies this`subscribers, subscribers
      ensures Valid()
      ensures forall s | s in old(subscribers) :: s.v == Delivered(old(s.v), event)
      ensures subscribers == set s | s in old(subscribers) && !s.closed
    {
      var waiting := subscribers;
      while waiting != {}
        invariant waiting <= old(subscribers)
        invariant forall s | s in waiting :: unchanged(s)
        invariant forall s | s in old(subscribers) - waiting :: s.v == Delivered(old(s.v), event)
        invariant forall s | s in old(subscribers) - waiting :: s.Valid() && s.capacity == capacity
        invariant forall s | s in old(subscribers) :: s in subscribers <==> (s in waiting || !s.closed)
        invariant subscribers <= old(subscribers)
        decreases waiting
      {
        var s :| s in waiting;
        waiting := waiting - {s};
        Deliver(s, event);
      }
    }

    method Deliver(s: Subscription<E>, event: E)
      requires s in subscribers && s.Valid() && !s.closed
      modifies s, this`subscribers
      ensures s.Valid() && s.v == Delivered(old(s.v), event)
      ensures subscribers == old(subscribers) - if s.closed then {s} else {}
    {
      DeliveredKeeps(s.v, event);
      ghost var was := s.v;
      var ok := s.Offer(event);
      if !ok {
        s.Close(true);
        subscribers := subscribers - {s};
      }
      s.v := Delivered(was, event);
    }

    // On the loop it fans out at once. Off the loop it is one hop behind those queued, and
    // lost when the loop is gone.
    method Publish(event: E, onLoop: bool)
      requires Valid()
      modifies this`subscribers, this`hops, subscribers
      ensures Valid()
      ensures subscribers == if closed || !onLoop then old(subscribers)
                             else set s | s in old(subscribers) && !s.closed
      ensures forall s | s in old(subscribers) ::
        s.v == if closed || !onLoop then old(s.v) else Delivered(old(s.v), event)
      ensures hops == old(hops) + if closed || onLoop || !loopOpen then [] else [event]
    {
      if closed {
        return;
      }
      if onLoop {
        FanOut(event);
      } else if loopOpen {
        hops := hops + [event];
      }
    }

    // The loop runs the oldest hop, even one that outlived the bus.
    method RunHop()
      requires Valid() && loopOpen && hops != []
      modifies this`subscribers, this`hops, subscribers
      ensures Valid() && hops == old(hops)[1..]
      ensures subscribers == set s | s in old(subscribers) && !s.closed
      ensures forall s | s in old(subscribers) :: s.v == Delivered(old(s.v), old(hops)[0])
    {
      var event := hops[0];
      hops := hops[1..];
      FanOut(event);
    }

    // `close` of a subscription that was not dropped: closed, and out of the set.
    method Leave(s: Subscription<E>)
      requires Valid() && s.Valid() && (s in subscribers || s.closed)
      modifies this`subscribers, s
      ensures Valid() && s.Valid() && s.v == Closed(old(s.v), false)
      ensures subscribers == old(subscribers) - {s}
    {
      ClosedKeeps(s.v);
      s.Close(false);
      subscribers := subscribers - {s};
    }

    method Close()
      requires Valid()
      modifies this`subscribers, this`closed, subscribers
      ensures Valid() && closed
      ensures subscribers == if old(closed) then old(subscribers) else {}
      ensures forall s | s in old(subscribers) ::
        s.v == if old(closed) then old(s.v) else Closed(old(s.v), false)
    {
      if closed {
        return;
      }
      closed := true;
      var waiting := subscribers;
      while waiting != {}
        invariant waiting <= old(subscribers) && subscribers == waiting && closed
        invariant forall s | s in waiting :: unchanged(s)
        invariant forall s | s in old(subscribers) - waiting :: s.v == Closed(old(s.v), false)
        decreases waiting
      {
        var s :| s in waiting;
        waiting := waiting - {s};
        Leave(s);
      }
    }
  }
}
