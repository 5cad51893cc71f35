// The gateway publishing onto the bus: each of its steps fans out the block of events it
// added to the log, and subscribers come, read, leave and are dropped in between.
module Audience {
  import opened CallEntries
  import opened GatewayModel
  import GatewayLaws
  import LastView
  import Subscriber
  import BusModel

  type Sub = Subscriber.Sub<Event>
  type Bus = BusModel.Bus<Event>

  datatype House = House(gateway: State, bus: Bus)

  datatype Move =
    | Acts(action: Action)
    | Subscribes(id: nat)
    | Reads(id: nat)
    | Leaves(id: nat)
    | Closes

  function Opening(capacity: nat, factory: bool): House { House(Start(factory), BusModel.Init(capacity)) }

  // One block of publications from the loop, one after the other.
  function PublishAll(b: Bus, block: seq<Event>): Bus
    decreases |block|
  {
    if block == [] then b
    else PublishAll(if b.closed then b else BusModel.FanOut(b, block[0]), block[1..])
  }

  function OnBus(m: Move): BusModel.Action<Event>
    requires !m.Acts?
  {
    match m
    case Subscribes(id) => BusModel.Subscribe(id)
    case Reads(id) => BusModel.Read(id)
    case Leaves(id) => BusModel.Leave(id)
    case Closes => BusModel.CloseBus
  }

  predicate Enabled(h: House, m: Move) {
    if m.Acts? then GatewayModel.Enabled(h.gateway, m.action) else BusModel.Enabled(h.bus, OnBus(m))
  }

  // What a step added; the log only ever grows.
  function Added(was: seq<Event>, now: seq<Event>): seq<Event> {
    if |was| <= |now| then now[|was|..] else []
  }

  function Step(h: House, m: Move): House
    requires Enabled(h, m)
  {
    if m.Acts? then
      var g := GatewayModel.Step(h.gateway, m.action);
      House(g, PublishAll(h.bus, Added(h.gateway.log, g.log)))
    else h.(bus := BusModel.Step(h.bus, OnBus(m)))
  }

  // ---- one subscriber and one block --------------------------------------------

  function Fed(s: Sub, block: seq<Event>): Sub
    decreases |block|
  {
    if block == [] then s
    else Fed(if s.closed then s else Subscriber.Delivered(s, block[0]), block[1..])
  }

  // It takes the whole block, or it is dropped.
  lemma {:induction false} FedWholly(s: Sub, block: seq<Event>)
    ensures var t := Fed(s, block);
      if s.closed then t == s
      else (t.dropped && t.closed) || (!t.closed && t.dropped == s.dropped && t.accepted == s.accepted + block)
    decreases |block|
  {
    if block != [] && !s.closed {
      FedWholly(Subscriber.Delivered(s, block[0]), block[1..]);
      assert s.accepted + block == (s.accepted + [block[0]]) + block[1..];
    } else if block != [] {
      FedWholly(s, block[1..]);
    }
  }

  lemma FedEnds(s: Sub, block: seq<Event>)
    requires Ends(s) && (block != [] ==> block[|block| - 1].StateEvent?)
    ensures Ends(Fed(s, block))
  {
    FedWholly(s, block);
    if block != [] && !s.closed {
      var accepted := s.accepted + block;
      assert accepted[|accepted| - 1] == block[|block| - 1];
    }
  }

  lemma {:induction false} PublishKeeps(b: Bus, block: seq<Event>)
    requires BusModel.Inv(b)
    ensures var c := PublishAll(b, block);
      && BusModel.Inv(c) && c.closed == b.closed && c.subs.Keys == b.subs.Keys
      && c.log == b.log + if b.closed then [] else block
    decreases |block|
  {
    if block != [] {
      if b.closed {
        PublishKeeps(b, block[1..]);
      } else {
        BusModel.FanOutKeeps(b, block[0]);
        PublishKeeps(BusModel.FanOut(b, block[0]), block[1..]);
        assert b.log + block == (b.log + [block[0]]) + block[1..];
      }
    }
  }

  // Publishing a block feeds each subscriber that block and nothing else.
  lemma {:induction false} PublishFeeds(b: Bus, block: seq<Event>, id: nat)
    requires id in b.subs
    ensures id in PublishAll(b, block).subs
    ensures PublishAll(b, block).subs[id] == if b.closed then b.subs[id] else Fed(b.subs[id], block)
    decreases |block|
  {
    if block != [] {
      if b.closed {
        PublishFeeds(b, block[1..], id);
      } else {
        PublishFeeds(BusModel.FanOut(b, block[0]), block[1..], id);
      }
    }
  }

  // ---- what the two of them keep -----------------------------------------------

  predicate EndsOnAState(s: Sub) {
    s.dropped || s.accepted == [] || s.accepted[|s.accepted| - 1].StateEvent?
  }

  predicate Ends(s: Sub) { EndsOnAState(s) && (s.dropped ==> s.closed) }

  ghost predicate AllEnd(b: Bus) { forall id | id in b.subs :: Ends(b.subs[id]) }

  ghost predicate Inv(h: House) {
    && Whole(h.gateway) && BusModel.Inv(h.bus)
    && (!h.bus.closed ==> h.bus.log == h.gateway.log)
    && AllEnd(h.bus)
  }

  const NOTHING := GatewayLaws.Trace([], [])

  function TraceOf(g: State): GatewayLaws.Trace { GatewayLaws.TraceOf(g) }

  ghost predicate Whole(g: State) {
    GatewayLaws.Kept(g) && GatewayLaws.Grows(NOTHING, TraceOf(g))
  }

  lemma GatewayOn(g: State, a: Action)
    requires Whole(g) && GatewayModel.Enabled(g, a)
    ensures var t := GatewayModel.Step(g, a); Whole(t) && GatewayLaws.Grows(TraceOf(g), TraceOf(t))
  {
    GatewayLaws.KeptOn(g, a);
    GatewayLaws.GrowsOn(NOTHING, TraceOf(g), TraceOf(GatewayModel.Step(g, a)));
  }

  lemma BusTakes(b: Bus, block: seq<Event>)
    requires BusModel.Inv(b) && AllEnd(b) && (block != [] ==> block[|block| - 1].StateEvent?)
    ensures var c := PublishAll(b, block);
      && BusModel.Inv(c) && AllEnd(c) && c.closed == b.closed
      && c.log == b.log + if b.closed then [] else block
  {
    PublishKeeps(b, block);
    forall id | id in b.subs ensures Ends(PublishAll(b, block).subs[id]) {
      PublishFeeds(b, block, id);
      FedEnds(b.subs[id], block);
    }
  }

  lemma AddedWhole(was: GatewayLaws.Trace, now: GatewayLaws.Trace)
    requires GatewayLaws.Grows(was, now)
    ensures var block := Added(was.log, now.log);
      was.log + block == now.log && (block != [] ==> block[|block| - 1].StateEvent?)
  {
    var block := Added(was.log, now.log);
    assert was.log + block == now.log;
    if block != [] { assert block[|block| - 1] == now.log[|now.log| - 1]; }
  }

  lemma ActsOn(h: House, a: Action)
    requires Inv(h) && GatewayModel.Enabled(h.gateway, a)
    ensures Inv(Step(h, Acts(a)))
  {
    GatewayOn(h.gateway, a);
    var was, now := h.gateway.log, GatewayModel.Step(h.gateway, a).log;
    AddedWhole(TraceOf(h.gateway), TraceOf(GatewayModel.Step(h.gateway, a)));
    BusTakes(h.bus, Added(was, now));
  }

  lemma OneEnds(b: Bus, id: nat, s: Sub)
    requires AllEnd(b) && Ends(s)
    ensures AllEnd(b.(subs := b.subs[id := s]))
  {
  }

  lemma CloseAllEnds(b: Bus)
    requires AllEnd(b)
    ensures AllEnd(BusModel.CloseAll(b))
  {
    forall id | id in b.subs ensures Ends(BusModel.CloseAll(b).subs[id]) {
      assert Ends(b.subs[id]);
    }
  }

  lemma AllEndKept(b: Bus, m: Move)
    requires AllEnd(b) && !m.Acts? && BusModel.Enabled(b, OnBus(m))
    ensures AllEnd(BusModel.Step(b, OnBus(m)))
  {
    match m
    case Subscribes(id) => OneEnds(b, id, Subscriber.New(b.capacity));
    case Reads(id) => OneEnds(b, id, Subscriber.Next(b.subs[id]));
    case Leaves(id) => OneEnds(b, id, Subscriber.Closed(b.subs[id], false));
    case Closes => CloseAllEnds(b);
  }

  lemma MovesOn(h: House, m: Move)
    requires Inv(h) && Enabled(h, m) && !m.Acts?
    ensures Inv(Step(h, m))
  {
    BusModel.StepKeeps(h.bus, OnBus(m));
    AllEndKept(h.bus, m);
  }

  predicate Feasible(h: House, run: seq<Move>)
    decreases |run|
  {
    run == [] || (Enabled(h, run[0]) && Feasible(Step(h, run[0]), run[1..]))
  }

  function Run(h: House, run: seq<Move>): House
    requires Feasible(h, run)
    decreases |run|
  {
    if run == [] then h else Run(Step(h, run[0]), run[1..])
  }

  lemma {:induction false} InvThrough(h: House, run: seq<Move>)
    requires Feasible(h, run)
    ensures Inv(h) ==> Inv(Run(h, run))
    decreases |run|
  {
    if run != [] && Inv(h) {
      if run[0].Acts? { ActsOn(h, run[0].action); } else { MovesOn(h, run[0]); }
      InvThrough(Step(h, run[0]), run[1..]);
    }
  }

  // Between loop steps, a subscriber not dropped that was given anything at all was last
  // given a state. And one that is on the bus and has read all it was given has seen the
  // newest state there is: if that state is up to date, what it shows is what the gateway
  // holds.
  lemma ASubscriberEndsOnAState(capacity: nat, factory: bool, run: seq<Move>, id: nat)
    requires Feasible(Opening(capacity, factory), run)
    ensures var h := Run(Opening(capacity, factory), run); id in h.bus.subs ==>
      EndsOnAState(h.bus.subs[id]) && (CaughtUp(h.bus.subs[id]) ==> SeesTheNewest(h.gateway, h.bus.subs[id]))
  {
    InvThrough(Opening(capacity, factory), run);
    var h := Run(Opening(capacity, factory), run);
    if id in h.bus.subs && CaughtUp(h.bus.subs[id]) {
      OpenOnTheBus(h, id);
      Newest(h.gateway, h.bus.subs[id], h.bus.since[id]);
    }
  }

  predicate CaughtUp(s: Sub) { !s.closed && s.queue == [] && s.read != [] }

  predicate SeesTheNewest(g: State, s: Sub) {
    && s.read != [] && g.log != [] && s.read[|s.read| - 1] == g.log[|g.log| - 1]
    && (LastView.UpToDate(g) ==> LastView.Shown(s.read, g.book, g.own.micMuted))
  }

  // What it read is the end of the log.
  lemma ReadToTheEnd(s: Sub, log: seq<Event>, from: nat)
    requires Subscriber.Inv(s) && BusModel.HeardFrom(s, log, from) && CaughtUp(s)
    ensures log != [] && s.read[|s.read| - 1] == log[|log| - 1]
  {
    assert s.read == s.accepted == s.heard;
  }

  lemma EndsAlike(read: seq<Event>, log: seq<Event>, b: Book, muted: bool)
    requires read != [] && log != [] && read[|read| - 1] == log[|log| - 1]
    ensures LastView.Shown(log, b, muted) ==> LastView.Shown(read, b, muted)
  {
  }

  lemma Newest(g: State, s: Sub, from: nat)
    requires Subscriber.Inv(s) && BusModel.HeardFrom(s, g.log, from) && CaughtUp(s)
    ensures SeesTheNewest(g, s)
  {
    ReadToTheEnd(s, g.log, from);
    EndsAlike(s.read, g.log, g.book, g.own.micMuted);
  }

  // A subscriber still on the bus has the log of the gateway before it.
  lemma OpenOnTheBus(h: House, id: nat)
    requires BusModel.Inv(h.bus) && (!h.bus.closed ==> h.bus.log == h.gateway.log)
    requires id in h.bus.subs && !h.bus.subs[id].closed
    ensures id in h.bus.since
    ensures Subscriber.Inv(h.bus.subs[id])
    ensures BusModel.HeardFrom(h.bus.subs[id], h.gateway.log, h.bus.since[id])
  {
    assert Subscriber.Inv(h.bus.subs[id]) && BusModel.Heard(h.bus, id);
  }
}
