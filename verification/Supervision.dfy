// The registration supervisor at loop-step granularity: its background loop, `stop`, the
// client factory and the holder every command speaks through. A step is what runs between
// two awaits; a cancellation reaches the loop at whichever await it stands.
module SupervisionModel {

  import opened Options

  // How an await came back: its result, an `UrmetError`, or anything else.
  datatype Reply = Fine | Refused | Broke

  datatype Outcome = Up | Down | Release(obtained: bool)

  // Where the loop is suspended, and for which client.
  datatype At =
    | Unlaunched
    | Ready
    | Starting
    | Connecting                 // in `on_connected`
    | Holding                    // asleep between two refreshes
    | Refreshing
    | Releasing(ran: bool)       // whether the worker has begun this `client.stop`
    | Backing(delay: nat)
    | Done                       // it returned, or was cancelled
    | Died                       // it raised

  datatype Stopper =
    | Idle
    | Joining                    // waiting for the loop to end
    | Letting(last: nat, ran: bool)   // the last release
    | Returned(published: bool)
    | Raised

  // Clients are numbered as they are built; the first is built before the loop.
  datatype Factory = Factory(pending: bool, built: nat, handed: seq<nat>)

  datatype Loop = Loop(at: At, cancelled: bool, client: nat)   // the loop's own variable

  datatype Own = Own(step: nat, stopped: bool, client: Option<nat>)

  // History: a backoff sleep, and how many outcomes had been published when it began.
  datatype Slept = Slept(delay: nat, after: nat)

  datatype World = World(
    holder: Option<nat>,
    live: set<nat>,              // history: built, and `stop` never begun on them
    strays: set<nat>,            // clients whose `stop` was submitted, and its await cancelled
    outcomes: seq<Outcome>,      // what was published, in order
    sleeps: seq<Slept>)

  datatype State = State(own: Own, loop: Loop, stopper: Stopper, factory: Factory, world: World)

  datatype Action =
    | Launch                                     // `start`
    | Resume(reply: Reply, yes: bool, buildable: bool)
    | WorkerStops                                // the worker begins the awaited `client.stop`
    | StrayStops(client: nat)                    // or one whose await was cancelled
    | StopCalled
    | StopResumes(reply: Reply, yes: bool)

  const BACKOFF_S := [5, 10, 20, 40, 60]
  const LIVENESS_INTERVAL_S := 300

  // `rebuilding_factory` has built the first client and set it in the holder.
  const BOOT := State(Own(0, false, None), Loop(Unlaunched, false, 0), Idle, Factory(true, 1, []),
                      World(Some(0), {0}, {}, [], []))

  function CurrentDelay(step: nat): nat { BACKOFF_S[if step < 4 then step else 4] }

  function Published(w: World, outcome: Outcome): World {
    w.(outcomes := w.outcomes + [outcome])
  }

  predicate Finished(at: At) { at.Done? || at.Died? }

  function To(s: State, at: At): State { s.(loop := s.loop.(at := at)) }

  // ---- the loop ----------------------------------------------------------------

  // The factory's answer, and the client it points everybody at.
  function Build(s: State): State {
    if s.factory.pending then
      s.(factory := Factory(false, s.factory.built, s.factory.handed + [0]),
         own := s.own.(client := Some(0)), loop := s.loop.(client := 0))
    else
      var id := s.factory.built;
      s.(factory := Factory(false, id + 1, s.factory.handed + [id]),
         own := s.own.(client := Some(id)), loop := s.loop.(client := id),
         world := s.world.(holder := Some(id), live := s.world.live + {id}))
  }

  // The head of the loop.
  function Attempt(s: State, buildable: bool): State {
    if s.own.stopped then To(s, Done)
    else if !s.factory.pending && !buildable then To(s, Died)
    else To(Build(s), Starting)
  }

  function Publish(s: State, outcome: Outcome): State { s.(world := Published(s.world, outcome)) }

  function GoDown(s: State): State { To(Publish(s, Down), Releasing(false)) }

  function Sleep(s: State, delay: nat): State {
    To(s, Backing(delay)).(world := s.world.(
      sleeps := s.world.sleeps + [Slept(delay, |s.world.outcomes|)]))
  }

  // `yes` is what was read on the way: the binding confirmed, the release obtained, or the
  // worker busy.
  function Resumed(s: State, reply: Reply, yes: bool, buildable: bool): State {
    if s.loop.cancelled && !Finished(s.loop.at) then
      s.(loop := Loop(Done, false, s.loop.client),
         world := if s.loop.at.Releasing? then s.world.(strays := s.world.strays + {s.loop.client})
                  else s.world)
    else match s.loop.at
      case Ready => Attempt(s, buildable)
      case Starting =>
        if reply.Fine? then To(Publish(s, Up), Connecting).(own := s.own.(step := 0)) else GoDown(s)
      case Connecting =>
        if !reply.Fine? then To(s, Died)
        else if s.own.stopped then To(s, Releasing(false))
        else To(s, Holding)
      case Holding => if s.own.stopped then To(s, Releasing(false)) else To(s, Refreshing)
      case Refreshing =>
        if !reply.Fine? || !yes then GoDown(s)
        else if s.own.stopped then To(Publish(s, Up), Releasing(false))
        else To(Publish(s, Up), Holding)
      case Releasing(_) =>
        if reply.Broke? then To(s, Died)
        else Sleep(Publish(s, Release(reply.Fine? && yes)), CurrentDelay(s.own.step))
      case Backing(delay) =>
        if !s.own.stopped && yes then Sleep(s, delay)
        else Attempt(s.(own := s.own.(step := s.own.step + 1)), buildable)
      case _ => s
  }

  // ---- stop --------------------------------------------------------------------

  function StopBegins(s: State): State {
    if s.own.stopped then s
    else
      var t := s.(own := s.own.(stopped := true));
      if s.loop.at.Unlaunched? then LastRelease(t)
      else t.(stopper := Joining, loop := s.loop.(cancelled := !Finished(s.loop.at)))
  }

  function LastRelease(s: State): State {
    s.(own := s.own.(client := None),
       stopper := if s.own.client.Some? then Letting(s.own.client.value, false) else Returned(false))
  }

  function StopResumed(s: State, reply: Reply, yes: bool): State {
    match s.stopper
    case Joining => if s.loop.at.Died? then s.(stopper := Raised) else LastRelease(s)
    case Letting(_, _) =>
      if reply.Broke? then s.(stopper := Raised)
      else Publish(s, Release(reply.Fine? && yes)).(stopper := Returned(true))
    case _ => s
  }

  // ---- steps -------------------------------------------------------------------

  // A `client.stop` that came back has been begun; only one refused outright was not.
  predicate Enabled(s: State, a: Action) {
    match a
    case Launch => s.loop.at.Unlaunched?
    case Resume(reply, _, _) =>
      && !s.loop.at.Unlaunched? && !Finished(s.loop.at)
      && (s.loop.at.Releasing? && !s.loop.cancelled && !s.loop.at.ran ==> reply.Broke?)
    case WorkerStops =>
      (s.loop.at.Releasing? && !s.loop.at.ran) || (s.stopper.Letting? && !s.stopper.ran)
    case StrayStops(client) => client in s.world.strays
    case StopCalled => true
    case StopResumes(reply, _) =>
      || (s.stopper.Joining? && Finished(s.loop.at))
      || (s.stopper.Letting? && (s.stopper.ran || reply.Broke?))
  }

  function Stopped(w: World, client: nat): World { w.(live := w.live - {client}) }

  function Stops(s: State): State {
    if s.stopper.Letting? then
      s.(stopper := Letting(s.stopper.last, true), world := Stopped(s.world, s.stopper.last))
    else To(s, Releasing(true)).(world := Stopped(s.world, s.loop.client))
  }

  function Step(s: State, a: Action): State
    requires Enabled(s, a)
  {
    match a
    case Launch => To(s, Ready)
    case Resume(reply, yes, buildable) => Resumed(s, reply, yes, buildable)
    case WorkerStops => Stops(s)
    case StrayStops(client) => s.(world := Stopped(s.world, client))
    case StopCalled => StopBegins(s)
    case StopResumes(reply, yes) => StopResumed(s, reply, yes)
  }

  predicate Feasible(s: State, run: seq<Action>)
    decreases |run|
  {
    run == [] || (Enabled(s, run[0]) && Feasible(Step(s, run[0]), run[1..]))
  }

  function Run(s: State, run: seq<Action>): State
    requires Feasible(s, run)
    decreases |run|
  {
    if run == [] then s else Run(Step(s, run[0]), run[1..])
  }
}

module SupervisionLaws {
  import opened Options
  import opened SupervisionModel

  // ---- one live client ---------------------------------------------------------

  function UpTo(n: nat): seq<nat> { seq(n, i => i) }

  // The loop has built or been handed its first client, and nobody has taken it back.
  predicate Underway(s: State) {
    !s.loop.at.Unlaunched? && !s.loop.at.Ready? && !Finished(s.loop.at)
  }

  ghost predicate Single(s: State) {
    && s.factory.built > 0
    && s.world.live <= {s.factory.built - 1}
    && (if s.factory.pending then s.factory.built == 1 && s.factory.handed == []
        else s.factory.handed == UpTo(s.factory.built))
    && s.world.holder == Some(s.factory.built - 1)
    && (s.own.client.Some? ==> s.own.client == s.world.holder && !s.factory.pending)
    && (Underway(s) ==> s.own.client == Some(s.loop.client))
    && (s.loop.at.Releasing? && s.loop.at.ran ==> s.world.live == {})
    && (s.loop.at.Backing? ==> s.world.live == {})
    && (s.loop.at.Unlaunched? || s.loop.at.Ready? ==> s.factory.pending)
  }

  // `stop` and the loop take turns: once it is stopped the loop only ever ends.
  predicate Turns(s: State) {
    && (!s.stopper.Idle? ==> s.own.stopped)
    && (s.own.stopped ==> !s.stopper.Idle?)
    && (s.stopper.Joining? ==> s.loop.cancelled || Finished(s.loop.at))
    && (s.stopper.Letting? || s.stopper.Returned? || s.stopper.Raised? ==>
          Finished(s.loop.at) || s.factory.pending)
    && (s.loop.cancelled ==> s.own.stopped)
    && (s.stopper.Letting? ==> s.own.client.None? && s.world.holder == Some(s.stopper.last))
    && (s.stopper.Letting? && s.stopper.ran ==> s.world.live == {})
    && (s.stopper == Returned(true) ==> s.world.live == {})
    && (s.stopper.Returned? ==> s.own.client.None?)
    && (s.stopper == Returned(false) ==> s.factory.pending)
    && (s.stopper.Letting? || s.stopper == Returned(true) ==> !s.factory.pending)
    && ((s.stopper.Idle? || s.stopper.Joining?) && !s.factory.pending ==> s.own.client.Some?)
  }

  lemma SingleKept(s: State, a: Action)
    requires Single(s) && Turns(s) && Enabled(s, a)
    ensures Single(Step(s, a))
  {
  }

  lemma TurnsKept(s: State, a: Action)
    requires Single(s) && Turns(s) && Enabled(s, a)
    ensures Turns(Step(s, a))
  {
  }

  lemma {:induction false} OwnersThrough(s: State, run: seq<Action>)
    requires Single(s) && Turns(s) && Feasible(s, run)
    ensures Single(Run(s, run)) && Turns(Run(s, run))
    decreases |run|
  {
    if run != [] {
      SingleKept(s, run[0]);
      TurnsKept(s, run[0]);
      OwnersThrough(Step(s, run[0]), run[1..]);
    }
  }

  // In every run: of all the clients ever built at most one has not had `stop` begun on
  // it; each was handed to the supervisor once, in the order built, but for the first one
  // until the loop takes it; and whenever the supervisor has a client, the holder names
  // that one. It has one from the loop's first step until `stop` takes it back.
  lemma OneLiveClient(run: seq<Action>)
    requires Feasible(BOOT, run)
    ensures var s := Run(BOOT, run);
      && (forall x, y | x in s.world.live && y in s.world.live :: x == y)
      && s.factory.handed == UpTo(if s.factory.pending then 0 else s.factory.built)
      && (s.own.client.Some? ==> s.own.client == s.world.holder)
      && (!s.factory.pending && (s.stopper.Idle? || s.stopper.Joining?) ==> s.own.client.Some?)
  {
    OwnersThrough(BOOT, run);
  }

  // ---- who is left live --------------------------------------------------------

  // The loop stands on a client whose `stop` has not begun.
  predicate OnALiveOne(at: At) {
    at.Starting? || at.Connecting? || at.Holding? || at.Refreshing? || at == Releasing(false)
  }

  // Live is the first client until the loop takes it, and then the loop's own, from its
  // build to the moment its `stop` begins. Only a cancelled loop leaves a `stop` astray.
  ghost predicate Living(s: State) {
    && (s.factory.pending ==> s.world.live == {0})
    && (OnALiveOne(s.loop.at) ==> s.world.live == {s.loop.client})
    && (s.loop.at == Releasing(true) || s.loop.at.Backing? ==> s.world.live == {})
    && (!s.loop.at.Done? || s.factory.pending ==> s.world.strays == {})
  }

  lemma LivingKept(s: State, a: Action)
    requires Single(s) && Turns(s) && Living(s) && Enabled(s, a)
    ensures Living(Step(s, a))
  {
    SingleKept(s, a);
  }

  lemma {:induction false} LivingThrough(s: State, run: seq<Action>)
    requires Single(s) && Turns(s) && Living(s) && Feasible(s, run)
    ensures var t := Run(s, run); Single(t) && Turns(t) && Living(t)
    decreases |run|
  {
    if run != [] {
      SingleKept(s, run[0]);
      TurnsKept(s, run[0]);
      LivingKept(s, run[0]);
      LivingThrough(Step(s, run[0]), run[1..]);
    }
  }

  // A `stop` that returned leaves a client live exactly when the loop never got as far as
  // taking the first one; and it published its release exactly when it did.
  lemma StopLeavesNothingLive(run: seq<Action>)
    requires Feasible(BOOT, run)
    ensures var s := Run(BOOT, run); s.stopper.Returned? ==>
      && (s.stopper.published <==> !s.factory.pending)
      && (s.world.live != {} <==> s.factory.pending)
  {
    LivingThrough(BOOT, run);
  }

  // The resumption that kills the loop leaves its client live exactly when it stood in the
  // hook, or waited for a `client.stop` that had not begun; killed by a release that broke
  // in the middle, or by a client that was not built, it leaves none.
  lemma DeathLeavesLiveExactlyWhen(run: seq<Action>, reply: Reply, yes: bool, buildable: bool)
    requires Feasible(BOOT, run) && Enabled(Run(BOOT, run), Resume(reply, yes, buildable))
    requires Resumed(Run(BOOT, run), reply, yes, buildable).loop.at.Died?
    ensures var s := Run(BOOT, run);
      Resumed(s, reply, yes, buildable).world.live
      == if s.loop.at.Connecting? || s.loop.at == Releasing(false) then {s.loop.client} else {}
  {
    LivingThrough(BOOT, run);
  }

  lemma {:induction false} NobodyLetsItGo(s: State, run: seq<Action>)
    requires s.loop.at.Died? && (s.stopper.Idle? || s.stopper.Joining? || s.stopper.Raised?)
    requires s.world.strays == {} && Feasible(s, run)
    ensures Run(s, run).world.live == s.world.live
    decreases |run|
  {
    if run != [] {
      NobodyLetsItGo(Step(s, run[0]), run[1..]);
    }
  }

  // And that is how it stays: whatever follows, `stop` included, a client left live by a
  // dead loop is never let go.
  lemma ADeadLoopsClientStays(run: seq<Action>, later: seq<Action>)
    requires Feasible(BOOT, run) && Run(BOOT, run).loop.at.Died?
    requires Feasible(Run(BOOT, run), later)
    ensures Run(Run(BOOT, run), later).world.live == Run(BOOT, run).world.live
  {
    LivingThrough(BOOT, run);
    EndsThrough(BOOT, run, false);
    NobodyLetsItGo(Run(BOOT, run), later);
  }

  // A last release that breaks leaves its client as it finds it: live at most when the
  // worker had not begun that release.
  lemma ABrokenReleaseLeavesLive(run: seq<Action>, yes: bool)
    requires Feasible(BOOT, run) && Run(BOOT, run).stopper.Letting?
    requires Enabled(Run(BOOT, run), StopResumes(Broke, yes))
    ensures var s := Run(BOOT, run); var t := StopResumed(s, Broke, yes);
      && t.stopper.Raised? && t.world.live == s.world.live <= {s.stopper.last}
      && (s.stopper.ran ==> t.world.live == {})
  {
    LivingThrough(BOOT, run);
  }

  // ---- what is published -------------------------------------------------------

  // A release right after every loss, and only there.
  ghost predicate Lawful(os: seq<Outcome>) {
    && (os != [] ==> !os[0].Release?)
    && (forall i | 0 < i < |os| :: os[i].Release? <==> os[i - 1].Down?)
  }

  function Ups(n: nat): seq<Outcome> { seq(n, i => Up) }

  // One life of a binding: confirmed any number of times, lost, and let go.
  ghost predicate Block(os: seq<Outcome>) {
    |os| >= 2 && os[|os| - 1].Release? && os[..|os| - 2] == Ups(|os| - 2) && os[|os| - 2].Down?
  }

  // Any number of whole blocks, and the beginning of one more.
  ghost predicate Begun(os: seq<Outcome>)
    decreases |os|
  {
    || os == Ups(|os|)
    || (os != [] && os == Ups(|os| - 1) + [Down])
    || exists k | 0 < k <= |os| :: Block(os[..k]) && Begun(os[k..])
  }

  // How many times the binding was lost or refused since it was last up.
  function Losses(os: seq<Outcome>): nat {
    if os == [] || os[|os| - 1].Up? then 0
    else Losses(os[..|os| - 1]) + if os[|os| - 1].Down? then 1 else 0
  }

  lemma OneMore(os: seq<Outcome>, outcome: Outcome)
    requires Lawful(os)
    requires outcome.Release? <==> os != [] && os[|os| - 1].Down?
    ensures Lawful(os + [outcome])
    ensures Losses(os + [outcome])
         == if outcome.Up? then 0 else Losses(os) + if outcome.Down? then 1 else 0
  {
    assert (os + [outcome])[..|os|] == os;
  }

  // What the loop published: all there is, until `stop` publishes its own release.
  function Front(s: State): seq<Outcome> {
    var os := s.world.outcomes;
    if s.stopper == Returned(true) && os != [] then os[..|os| - 1] else os
  }

  predicate Lost(s: State) { Front(s) != [] && Front(s)[|Front(s)| - 1].Down? }

  ghost predicate Told(s: State) {
    var os := Front(s);
    && Lawful(os)
    && (s.loop.at.Releasing? <== Underway(s) && Lost(s))
    && (s.loop.at.Releasing? && !s.loop.cancelled ==> Lost(s) && Losses(os) == s.own.step + 1)
    && (s.loop.at.Backing? ==>
          Losses(os) == s.own.step + 1 && s.loop.at.delay == CurrentDelay(s.own.step))
    && (s.loop.at.Starting? ==> Losses(os) == s.own.step)
    && (s.loop.at.Connecting? || s.loop.at.Holding? || s.loop.at.Refreshing? ==>
          Losses(os) == 0 == s.own.step)
    && (s.loop.at.Unlaunched? || s.loop.at.Ready? ==> os == [] && s.own.step == 0)
    && (s.own.stopped && Underway(s) ==> s.loop.cancelled)
    && (s.stopper == Returned(true) ==>
          s.world.outcomes != [] && s.world.outcomes[|s.world.outcomes| - 1].Release?)
  }

  // The loop publishes one more outcome, a release exactly after a loss.
  lemma Says(s: State, outcome: Outcome)
    requires Lawful(Front(s)) && (outcome.Release? <==> Lost(s)) && s.stopper != Returned(true)
    ensures var os := Front(Publish(s, outcome));
      && os == Front(s) + [outcome] && Lawful(os) && (outcome.Down? <==> Lost(Publish(s, outcome)))
      && Losses(os) == if outcome.Up? then 0 else Losses(Front(s)) + if outcome.Down? then 1 else 0
  {
    OneMore(Front(s), outcome);
  }

  lemma LostTold(s: State, reply: Reply, yes: bool, buildable: bool)
    requires Told(s) && Turns(s) && Enabled(s, Resume(reply, yes, buildable))
    requires s.loop.at.Releasing?
    ensures Told(Resumed(s, reply, yes, buildable))
  {
    if !s.loop.cancelled {
      Says(s, Release(reply.Fine? && yes));
    }
  }

  lemma HeldTold(s: State, reply: Reply, yes: bool, buildable: bool)
    requires Told(s) && Turns(s) && Enabled(s, Resume(reply, yes, buildable))
    requires s.loop.at.Starting? || s.loop.at.Refreshing?
    ensures Told(Resumed(s, reply, yes, buildable))
  {
    if !s.loop.cancelled {
      Says(s, Up);
      Says(s, Down);
    }
  }

  lemma ResumedTold(s: State, reply: Reply, yes: bool, buildable: bool)
    requires Told(s) && Turns(s) && Enabled(s, Resume(reply, yes, buildable))
    ensures Told(Resumed(s, reply, yes, buildable))
  {
    match s.loop.at
    case Releasing(_) => LostTold(s, reply, yes, buildable);
    case Starting => HeldTold(s, reply, yes, buildable);
    case Refreshing => HeldTold(s, reply, yes, buildable);
    case _ =>
  }

  lemma StopTold(s: State, reply: Reply, yes: bool)
    requires Told(s) && Turns(s) && Enabled(s, StopResumes(reply, yes))
    ensures Told(StopResumed(s, reply, yes))
  {
    var t := StopResumed(s, reply, yes);
    if t.stopper == Returned(true) {
      assert Front(t) == Front(s);
    }
  }

  lemma ToldKept(s: State, a: Action)
    requires Told(s) && Turns(s) && Enabled(s, a)
    ensures Told(Step(s, a))
  {
    match a
    case Resume(reply, yes, buildable) => ResumedTold(s, reply, yes, buildable);
    case StopResumes(reply, yes) => StopTold(s, reply, yes);
    case _ =>
  }

  // Every sleep so far waited the entry its losses call for.
  ghost predicate Slow(w: World) {
    forall i | 0 <= i < |w.sleeps| ::
      && w.sleeps[i].after <= |w.outcomes|
      && Losses(w.outcomes[..w.sleeps[i].after]) > 0
      && w.sleeps[i].delay == CurrentDelay(Losses(w.outcomes[..w.sleeps[i].after]) - 1)
  }

  lemma SlowSaid(w: World, outcome: Outcome)
    requires Slow(w)
    ensures Slow(Published(w, outcome))
  {
    var v := Published(w, outcome);
    forall i | 0 <= i < |w.sleeps|
      ensures v.outcomes[..w.sleeps[i].after] == w.outcomes[..w.sleeps[i].after]
    {
    }
  }

  lemma SlowSlept(s: State)
    requires Slow(s.world) && Losses(s.world.outcomes) > 0
    ensures Slow(Sleep(s, CurrentDelay(Losses(s.world.outcomes) - 1)).world)
  {
    var os := s.world.outcomes;
    assert os[..|os|] == os;
  }

  lemma SleepAfterRelease(s: State, release: Outcome)
    requires Slow(s.world) && Lawful(s.world.outcomes) && release.Release?
    requires s.world.outcomes != [] && s.world.outcomes[|s.world.outcomes| - 1].Down?
    requires Losses(s.world.outcomes) == s.own.step + 1
    ensures Slow(Sleep(Publish(s, release), CurrentDelay(s.own.step)).world)
  {
    OneMore(s.world.outcomes, release);
    SlowSaid(s.world, release);
    SlowSlept(Publish(s, release));
  }

  lemma ReleasedSlow(s: State, reply: Reply, yes: bool, buildable: bool)
    requires Slow(s.world) && Told(s) && Turns(s) && Enabled(s, Resume(reply, yes, buildable))
    requires s.loop.at.Releasing?
    ensures Slow(Resumed(s, reply, yes, buildable).world)
  {
    if !s.loop.cancelled && !reply.Broke? {
      assert Front(s) == s.world.outcomes;
      SleepAfterRelease(s, Release(reply.Fine? && yes));
    }
  }

  lemma ResumedSlow(s: State, reply: Reply, yes: bool, buildable: bool)
    requires Slow(s.world) && Told(s) && Turns(s) && Enabled(s, Resume(reply, yes, buildable))
    ensures Slow(Resumed(s, reply, yes, buildable).world)
  {
    match s.loop.at
    case Releasing(_) => ReleasedSlow(s, reply, yes, buildable);
    case Backing(_) => if !s.loop.cancelled { SlowSlept(s); }
    case _ =>
      SlowSaid(s.world, Up);
      SlowSaid(s.world, Down);
  }

  lemma SlowKept(s: State, a: Action)
    requires Slow(s.world) && Told(s) && Turns(s) && Enabled(s, a)
    ensures Slow(Step(s, a).world)
  {
    match a
    case Resume(reply, yes, buildable) => ResumedSlow(s, reply, yes, buildable);
    case StopResumes(reply, yes) => SlowSaid(s.world, Release(reply.Fine? && yes));
    case _ =>
  }

  lemma {:induction false} Through(s: State, run: seq<Action>)
    requires Single(s) && Turns(s) && Told(s) && Slow(s.world) && Feasible(s, run)
    ensures var t := Run(s, run); Single(t) && Turns(t) && Told(t) && Slow(t.world)
    decreases |run|
  {
    if run != [] {
      SingleKept(s, run[0]);
      TurnsKept(s, run[0]);
      ToldKept(s, run[0]);
      SlowKept(s, run[0]);
      Through(Step(s, run[0]), run[1..]);
    }
  }

  // ---- what the outcomes answer ------------------------------------------------

  // What an await that came back calls for, and nothing else does: a REGISTER taken is up,
  // a refresh is up when the client says so too, anything else is down; a release tells
  // what the registrar gave, unless it broke.
  function Answer(s: State, a: Action): seq<Outcome> {
    match a
    case Resume(reply, yes, _) =>
      if s.loop.cancelled then []
      else if s.loop.at.Starting? then [if reply == Fine then Up else Down]
      else if s.loop.at.Refreshing? then [if reply == Fine && yes then Up else Down]
      else if s.loop.at.Releasing? && reply != Broke then [Release(reply == Fine && yes)]
      else []
    case StopResumes(reply, yes) =>
      if s.stopper.Letting? && reply != Broke then [Release(reply == Fine && yes)] else []
    case _ => []
  }

  function Answers(s: State, run: seq<Action>): seq<Outcome>
    requires Feasible(s, run)
    decreases |run|
  {
    if run == [] then [] else Answer(s, run[0]) + Answers(Step(s, run[0]), run[1..])
  }

  lemma OneAnswer(s: State, a: Action)
    requires Enabled(s, a)
    ensures Step(s, a).world.outcomes == s.world.outcomes + Answer(s, a)
  {
  }

  lemma {:induction false} AnswersThrough(s: State, run: seq<Action>)
    requires Feasible(s, run)
    ensures Run(s, run).world.outcomes == s.world.outcomes + Answers(s, run)
    decreases |run|
  {
    if run != [] {
      OneAnswer(s, run[0]);
      AnswersThrough(Step(s, run[0]), run[1..]);
    }
  }

  // What was published last says where an uncancelled loop stands: held while it is up,
  // letting go after a loss, and otherwise on its way to the next attempt.
  predicate Placed(s: State) {
    var os := s.world.outcomes;
    !s.loop.cancelled && Underway(s) ==>
      if os != [] && os[|os| - 1].Up? then s.loop.at.Connecting? || s.loop.at.Holding? || s.loop.at.Refreshing?
      else if os != [] && os[|os| - 1].Down? then s.loop.at.Releasing?
      else s.loop.at.Starting? || s.loop.at.Backing?
  }

  lemma PlacedKept(s: State, a: Action)
    requires Turns(s) && Told(s) && Placed(s) && Enabled(s, a)
    ensures Placed(Step(s, a))
  {
  }

  lemma {:induction false} PlacedThrough(s: State, run: seq<Action>)
    requires Single(s) && Turns(s) && Told(s) && Placed(s) && Feasible(s, run)
    ensures Placed(Run(s, run))
    decreases |run|
  {
    if run != [] {
      SingleKept(s, run[0]);
      TurnsKept(s, run[0]);
      ToldKept(s, run[0]);
      PlacedKept(s, run[0]);
      PlacedThrough(Step(s, run[0]), run[1..]);
    }
  }

  // In every run the outcomes are the answers to what came back, one each and in order; and
  // the last one says where the loop is.
  lemma OutcomesAreTheAnswers(run: seq<Action>)
    requires Feasible(BOOT, run)
    ensures Run(BOOT, run).world.outcomes == Answers(BOOT, run)
    ensures Placed(Run(BOOT, run))
  {
    AnswersThrough(BOOT, run);
    PlacedThrough(BOOT, run);
  }

  // What is not published moves on too. A loop that is not told to stop goes from the hook
  // to holding, from a hold to a refresh, from a refresh taken back to holding, from a
  // release to a sleep of its own; and from a sleep that ends on an idle worker to a REGISTER
  // of a client nobody was handed before.
  lemma TheLoopGoesOn(run: seq<Action>, reply: Reply, yes: bool)
    requires Feasible(BOOT, run) && Enabled(Run(BOOT, run), Resume(reply, yes, true))
    requires !Run(BOOT, run).own.stopped
    ensures var s := Run(BOOT, run); var t := Resumed(s, reply, yes, true); var loop := t.loop;
      && (s.loop.at.Connecting? && reply == Fine ==> loop.at.Holding?)
      && (s.loop.at.Holding? ==> loop.at.Refreshing?)
      && (s.loop.at.Starting? && reply == Fine ==> loop.at.Connecting?)
      && (s.loop.at.Refreshing? && reply == Fine && yes ==> loop.at.Holding?)
      && (s.loop.at.Releasing? && reply != Broke ==> |t.world.sleeps| == |s.world.sleeps| + 1)
      && (s.loop.at.Ready? || (s.loop.at.Backing? && !yes) ==>
            && loop.at.Starting? && t.factory.handed == s.factory.handed + [loop.client]
            && loop.client !in s.factory.handed)
  {
    Through(BOOT, run);
  }

  // ---- the grammar -------------------------------------------------------------

  function LeadingUps(os: seq<Outcome>): (n: nat)
    ensures n <= |os| && os[..n] == Ups(n) && (n < |os| ==> !os[n].Up?)
  {
    if os == [] || !os[0].Up? then 0
    else
      var n := LeadingUps(os[1..]);
      assert os[..n + 1] == [os[0]] + os[1..][..n];
      n + 1
  }

  lemma {:induction false} LawfulBegins(os: seq<Outcome>)
    requires Lawful(os)
    ensures Begun(os)
    decreases |os|
  {
    var n := LeadingUps(os);
    if n == |os| {
      assert os == os[..n];
    } else if n + 1 == |os| {
      assert n > 0 ==> os[n - 1] == os[..n][n - 1];
      assert os == os[..n] + [os[n]];
    } else {
      var k := n + 2;
      assert n > 0 ==> os[n - 1] == os[..n][n - 1];
      assert os[n].Down? && os[n + 1].Release?;
      assert os[..k][..n] == os[..n];
      assert Block(os[..k]);
      LawfulBegins(os[k..]);
    }
  }

  lemma BlockIsLawful(os: seq<Outcome>)
    requires Block(os)
    ensures Lawful(os)
  {
    var n := |os| - 2;
    assert forall i | 0 <= i < n :: os[i] == os[..n][i];
  }

  lemma BlockThen(head: seq<Outcome>, tail: seq<Outcome>)
    requires Block(head) && Lawful(tail)
    ensures Lawful(head + tail)
  {
    BlockIsLawful(head);
  }

  lemma PartIsLawful(os: seq<Outcome>)
    requires os == Ups(|os|) || (os != [] && os == Ups(|os| - 1) + [Down])
    ensures Lawful(os)
  {
    assert forall i | 0 <= i < |os| - 1 :: os[i].Up?;
  }

  lemma {:induction false} BegunIsLawful(os: seq<Outcome>)
    requires Begun(os)
    ensures Lawful(os)
    decreases |os|
  {
    if os == Ups(|os|) || (os != [] && os == Ups(|os| - 1) + [Down]) {
      PartIsLawful(os);
    } else {
      var k :| 0 < k <= |os| && Block(os[..k]) && Begun(os[k..]);
      BegunIsLawful(os[k..]);
      BlockThen(os[..k], os[k..]);
      assert os == os[..k] + os[k..];
    }
  }

  // So a sequence is made of blocks exactly when it has a release right after every loss
  // and nowhere else.
  lemma LawfulExactlyWhenBegun(os: seq<Outcome>)
    ensures Lawful(os) <==> Begun(os)
  {
    if Lawful(os) { LawfulBegins(os); }
    if Begun(os) { BegunIsLawful(os); }
  }

  // In every run the outcomes are whole blocks (up any number of times, down, released)
  // and the beginning of one more, then the one release `stop` publishes, if it does.
  lemma OutcomesComeInBlocks(run: seq<Action>)
    requires Feasible(BOOT, run)
    ensures var s := Run(BOOT, run);
      && Begun(Front(s))
      && (if s.stopper == Returned(true) then exists ok :: s.world.outcomes == Front(s) + [Release(ok)]
          else s.world.outcomes == Front(s))
  {
    Through(BOOT, run);
    var s := Run(BOOT, run);
    LawfulBegins(Front(s));
    if s.stopper == Returned(true) {
      var os := s.world.outcomes;
      assert os == Front(s) + [Release(os[|os| - 1].obtained)];
    }
  }

  // The k-th refusal or loss since the binding was last up waits entry k of 5, 10, 20, 40,
  // 60, the last one repeating; a sleep that ends on a busy worker is followed by an equal
  // one, for nothing was lost in between.
  lemma WaitsFollowTheLosses(run: seq<Action>, i: nat)
    requires Feasible(BOOT, run)
    ensures var w := Run(BOOT, run).world; i < |w.sleeps| ==>
      && w.sleeps[i].after <= |w.outcomes|
      && var k := Losses(w.outcomes[..w.sleeps[i].after]);
         k > 0 && w.sleeps[i].delay == (if k <= 5 then BACKOFF_S[k - 1] else 60)
  {
    Through(BOOT, run);
  }

  // ---- the end -----------------------------------------------------------------

  // `stop` has returned or raised, and the loop has ended.
  predicate Over(s: State) {
    s.own.stopped && (s.stopper.Returned? || s.stopper.Raised?) && Finished(s.loop.at)
  }

  // After which nothing is published and nothing is built.
  lemma {:induction false} NothingFollows(s: State, run: seq<Action>)
    requires Over(s) && Feasible(s, run)
    ensures var t := Run(s, run);
      Over(t) && t.world.outcomes == s.world.outcomes && t.factory == s.factory
    decreases |run|
  {
    if run != [] {
      NothingFollows(Step(s, run[0]), run[1..]);
    }
  }

  // A loop that died takes `stop` with it: from then on nothing is ever published, the
  // last release included, and nothing is built.
  lemma {:induction false} ADeadLoopIsNeverReleased(s: State, run: seq<Action>)
    requires s.loop.at.Died? && (s.stopper.Idle? || s.stopper.Joining? || s.stopper.Raised?)
    requires Feasible(s, run)
    ensures var t := Run(s, run);
      && t.world.outcomes == s.world.outcomes && t.factory == s.factory
      && !t.stopper.Letting? && !t.stopper.Returned?
    decreases |run|
  {
    if run != [] {
      ADeadLoopIsNeverReleased(Step(s, run[0]), run[1..]);
    }
  }

  // The last `client.stop` came back with something that is no `UrmetError`.
  predicate LastReleaseBroke(s: State, run: seq<Action>)
    requires Feasible(s, run)
    decreases |run|
  {
    run != [] && (|| (s.stopper.Letting? && run[0].StopResumes? && run[0].reply.Broke?)
                  || LastReleaseBroke(Step(s, run[0]), run[1..]))
  }

  // How `stop` stands to what ended the loop, and to whether its own release broke.
  predicate Ends(s: State, broke: bool) {
    && (s.stopper.Raised? <== broke)
    && (s.stopper.Raised? ==> broke || s.loop.at.Died?)
    && (s.stopper.Letting? || s.stopper.Returned? ==> !s.loop.at.Died?)
    && (broke ==> Finished(s.loop.at) && !s.loop.at.Died?)
  }

  lemma EndsKept(s: State, a: Action, broke: bool)
    requires Turns(s) && Single(s) && Ends(s, broke) && Enabled(s, a)
    ensures Ends(Step(s, a), broke || (s.stopper.Letting? && a.StopResumes? && a.reply.Broke?))
  {
  }

  lemma {:induction false} EndsThrough(s: State, run: seq<Action>, broke: bool)
    requires Turns(s) && Single(s) && Ends(s, broke) && Feasible(s, run)
    ensures var t := Run(s, run);
      Turns(t) && Single(t) && Ends(t, broke || LastReleaseBroke(s, run))
    decreases |run|
  {
    if run != [] {
      SingleKept(s, run[0]);
      TurnsKept(s, run[0]);
      EndsKept(s, run[0], broke);
      EndsThrough(Step(s, run[0]), run[1..],
                  broke || (s.stopper.Letting? && run[0].StopResumes? && run[0].reply.Broke?));
    }
  }

  // Over every run: when `stop` has come to its end it raised exactly when the loop had
  // died or its own release broke, and it published that release exactly when neither
  // happened and the loop had taken a client to let go.
  lemma StopRaisesExactlyWhen(run: seq<Action>)
    requires Feasible(BOOT, run)
    ensures var s := Run(BOOT, run); s.stopper.Raised? || s.stopper.Returned? ==>
      && (s.stopper.Raised? <==> s.loop.at.Died? || LastReleaseBroke(BOOT, run))
      && (s.stopper == Returned(true) <==>
            !s.loop.at.Died? && !LastReleaseBroke(BOOT, run) && !s.factory.pending)
  {
    EndsThrough(BOOT, run, false);
  }

  // The loop turns to its next attempt.
  predicate Retries(s: State, yes: bool) {
    s.loop.at.Backing? && !s.own.stopped && !yes
  }

  // And the loop dies in exactly three ways, none of them a cancellation: the hook after a
  // REGISTER does not return, a release breaks, or a client to retry with is not built.
  lemma TheLoopDiesExactlyWhen(run: seq<Action>, reply: Reply, yes: bool, buildable: bool)
    requires Feasible(BOOT, run) && Enabled(Run(BOOT, run), Resume(reply, yes, buildable))
    ensures var s := Run(BOOT, run);
      Resumed(s, reply, yes, buildable).loop.at.Died? <==>
        && !s.loop.cancelled
        && (|| (s.loop.at.Connecting? && !reply.Fine?)
            || (s.loop.at.Releasing? && reply.Broke?)
            || (Retries(s, yes) && !buildable))
  {
    OwnersThrough(BOOT, run);
  }

  lemma Then(s: State, a: Action, rest: seq<Action>)
    requires Enabled(s, a) && Feasible(Step(s, a), rest)
    ensures Feasible(s, [a] + rest) && Run(s, [a] + rest) == Run(Step(s, a), rest)
  {
    assert ([a] + rest)[1..] == rest;
  }

  // One such run: the hook called after the first REGISTER raises. The binding is up, the
  // client is live, and `stop` will not let it go.
  lemma AHookThatRaisesLeaksTheBinding()
    ensures var run := [Launch] + ([Resume(Fine, true, true)] + ([Resume(Fine, true, true)]
                         + ([Resume(Broke, true, true)] + [])));
      && Feasible(BOOT, run) && Run(BOOT, run).loop.at.Died?
      && Run(BOOT, run).world.outcomes == [Up] && Run(BOOT, run).world.live == {0}
  {
    var ok := Resume(Fine, true, true);
    var s1 := Step(BOOT, Launch);
    var s2 := Step(s1, ok);
    var s3 := Step(s2, ok);
    Then(s3, Resume(Broke, true, true), []);
    Then(s2, ok, [Resume(Broke, true, true)] + []);
    Then(s1, ok, [ok] + ([Resume(Broke, true, true)] + []));
    Then(BOOT, Launch, [ok] + ([ok] + ([Resume(Broke, true, true)] + [])));
  }

  // And one in which it is the last release that breaks: the loop had ended well, nothing
  // is published, and the client is left as it was.
  lemma ALastStopThatBreaksIsNotPublished()
    ensures var ok := Resume(Fine, true, true);
      var run := [Launch] + ([ok] + ([StopCalled] + ([ok] + ([StopResumes(Fine, true)]
                   + ([StopResumes(Broke, true)] + [])))));
      && Feasible(BOOT, run)
      && var s := Run(BOOT, run);
        s.stopper.Raised? && s.loop.at.Done? && s.world.outcomes == [] && s.world.live == {0}
  {
    var ok, joins, breaks := Resume(Fine, true, true), StopResumes(Fine, true), StopResumes(Broke, true);
    var s1 := Step(BOOT, Launch);
    var s2 := Step(s1, ok);
    var s3 := Step(s2, StopCalled);
    var s4 := Step(s3, ok);
    var s5 := Step(s4, joins);
    Then(s5, breaks, []);
    Then(s4, joins, [breaks] + []);
    Then(s3, ok, [joins] + ([breaks] + []));
    Then(s2, StopCalled, [ok] + ([joins] + ([breaks] + [])));
    Then(s1, ok, [StopCalled] + ([ok] + ([joins] + ([breaks] + []))));
    Then(BOOT, Launch, [ok] + ([StopCalled] + ([ok] + ([joins] + ([breaks] + [])))));
  }
}
