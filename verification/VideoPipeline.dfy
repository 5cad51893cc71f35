// The generation counter of the video pipeline, with any number of arms, rebuilds, stalls
// and stops crossing one another. A run is named by the order it was built in.
module Generations {

  import opened Options
  datatype Arm = Arm(gen: nat, run: nat)

  datatype State = State(
    gen: nat,
    run: Option<nat>,
    built: nat,
    killed: set<nat>,
    crossing: map<nat, Arm>)      // arms inside `open_video`, and what they passed to it

  datatype Action =
    | StartRun(ok: bool)          // `_start_run`, or its OSError path
    | TakeRun                     // `_stop_run` once the watchdog is out of the way
    | PullThePlug                 // the kill that opens the stall reaction
    | BeginArm(id: nat, gen: nat) // `arm` up to the crossing
    | EndArm(id: nat)             // `arm` from the answer on

  datatype Answer = Crossing | StaleArmError | DownlinkNotDrainingError | Geometry(run: nat)

  const FRESH := State(0, None, 0, {}, map[])

  predicate Enabled(s: State, a: Action) {
    match a
    case BeginArm(id, _) => id !in s.crossing
    case EndArm(id) => id in s.crossing
    case _ => true
  }

  // What `arm` answers: before the crossing, or after an open that took.
  function Reply(s: State, a: Action): Answer
    requires Enabled(s, a) && (a.BeginArm? || a.EndArm?)
  {
    match a
    case BeginArm(_, gen) =>
      if gen != s.gen then StaleArmError
      else if s.run.None? || s.run.value in s.killed then DownlinkNotDrainingError
      else Crossing
    case EndArm(id) =>
      if s.crossing[id].gen != s.gen then StaleArmError else Geometry(s.crossing[id].run)
  }

  function Step(s: State, a: Action): State
    requires Enabled(s, a)
  {
    match a
    case StartRun(ok) =>
      if ok then s.(gen := s.gen + 1, run := Some(s.built), built := s.built + 1)
      else s.(gen := s.gen + 1)
    case TakeRun =>
      if s.run.None? then s
      else s.(gen := s.gen + 1, run := None, killed := s.killed + {s.run.value})
    case PullThePlug => if s.run.None? then s else s.(killed := s.killed + {s.run.value})
    case BeginArm(id, gen) =>
      if Reply(s, a).Crossing? then s.(crossing := s.crossing[id := Arm(gen, s.run.value)]) else s
    case EndArm(id) => s.(crossing := s.crossing - {id})
  }

  predicate Feasible(s: State, run: seq<Action>)
    decreases |run|
  {
    run == [] || (Enabled(s, run[0]) && Feasible(Step(s, run[0]), run[1..]))
  }

  function Run(s: State, run: seq<Action>): State
    requires Feasible(s, run)
    decreases |run|
  {
    if run == [] then s else Run(Step(s, run[0]), run[1..])
  }

  // One generation, one run: an arm whose generation has not passed was made on the run
  // the pipeline still has.
  ghost predicate Inv(s: State) {
    && (forall id | id in s.crossing :: s.crossing[id].gen <= s.gen)
    && (forall id | id in s.crossing && s.crossing[id].gen == s.gen ::
          s.run == Some(s.crossing[id].run))
  }

  lemma {:induction false} RunKeeps(s: State, run: seq<Action>)
    requires Inv(s) && Feasible(s, run)
    ensures Inv(Run(s, run)) && Run(s, run).gen >= s.gen
    decreases |run|
  {
    if run != [] {
      assert Inv(Step(s, run[0]));
      RunKeeps(Step(s, run[0]), run[1..]);
    }
  }

  // Over any rebuilds and stops while it crossed, `arm` answers a geometry only for the
  // run that is still the pipeline's own.
  lemma ArmAnswersForTheCurrentRun(run: seq<Action>, id: nat)
    requires Feasible(FRESH, run) && id in Run(FRESH, run).crossing
    ensures var s := Run(FRESH, run);
      Reply(s, EndArm(id)).Geometry? ==> s.run == Some(Reply(s, EndArm(id)).run)
  {
    RunKeeps(FRESH, run);
  }

  // An arm crosses only for the generation the pipeline is at, on its run and with a reader
  // on it: for one that has passed, however long ago, it is stale.
  lemma ArmCrossesExactlyWhen(run: seq<Action>, id: nat, gen: nat)
    requires Feasible(FRESH, run) && id !in Run(FRESH, run).crossing
    ensures var s := Run(FRESH, run); var t := Step(s, BeginArm(id, gen));
      && (id in t.crossing <==> gen == s.gen && s.run.Some? && s.run.value !in s.killed)
      && (id in t.crossing ==> t.crossing == s.crossing[id := Arm(s.gen, s.run.value)])
      && (Reply(s, BeginArm(id, gen)).StaleArmError? <==> gen != s.gen)
      && (gen < s.gen ==> t == s)
  {
    RunKeeps(FRESH, run);
  }

  // A step that builds, fails to build, or takes a run down.
  predicate Rebuilds(s: State, a: Action) { a.StartRun? || (a.TakeRun? && s.run.Some?) }

  predicate Undisturbed(s: State, run: seq<Action>)
    requires Feasible(s, run)
    decreases |run|
  {
    run == [] || (!Rebuilds(s, run[0]) && Undisturbed(Step(s, run[0]), run[1..]))
  }

  predicate Keeps(run: seq<Action>, id: nat) {
    forall i | 0 <= i < |run| :: run[i] != EndArm(id)
  }

  // And it answers one exactly when nothing was built or taken down while it crossed.
  lemma {:induction false} ArmSurvivesExactlyWhenUndisturbed(s: State, run: seq<Action>, id: nat)
    requires id in s.crossing && Feasible(s, run) && Keeps(run, id)
    ensures id in Run(s, run).crossing && Run(s, run).crossing[id] == s.crossing[id]
    ensures Run(s, run).gen >= s.gen
    ensures Run(s, run).gen == s.gen <==> Undisturbed(s, run)
    ensures s.crossing[id].gen == s.gen ==>
      (Reply(Run(s, run), EndArm(id)).Geometry? <==> Undisturbed(s, run))
    decreases |run|
  {
    if run != [] {
      var t := Step(s, run[0]);
      assert run[0] != EndArm(id);
      assert forall i | 0 <= i < |run[1..]| :: run[1..][i] == run[i + 1];
      ArmSurvivesExactlyWhenUndisturbed(t, run[1..], id);
    }
  }

  predicate PlugLeftIn(run: seq<Action>) {
    forall i | 0 <= i < |run| :: run[i] != PullThePlug
  }

  // And for a run still alive exactly when, besides, the plug was not pulled meanwhile.
  lemma {:induction false} ArmAnswersAliveExactlyWhen(s: State, run: seq<Action>, id: nat)
    requires Inv(s) && id in s.crossing && Feasible(s, run) && Keeps(run, id)
    requires s.crossing[id].gen == s.gen && s.crossing[id].run !in s.killed
    ensures id in Run(s, run).crossing
    ensures (Reply(Run(s, run), EndArm(id)).Geometry? && s.crossing[id].run !in Run(s, run).killed)
       <==> (Undisturbed(s, run) && PlugLeftIn(run))
    decreases |run|
  {
    ArmSurvivesExactlyWhenUndisturbed(s, run, id);
    if run != [] {
      var t := Step(s, run[0]);
      assert run[0] != EndArm(id) && Inv(t);
      assert forall i | 0 <= i < |run[1..]| :: run[1..][i] == run[i + 1];
      if run[0].PullThePlug? {
        KilledStays(t, run[1..], s.crossing[id].run);
      } else if !Rebuilds(s, run[0]) {
        ArmAnswersAliveExactlyWhen(t, run[1..], id);
      }
    }
  }

  lemma {:induction false} KilledStays(s: State, run: seq<Action>, dead: nat)
    requires dead in s.killed && Feasible(s, run)
    ensures dead in Run(s, run).killed
    decreases |run|
  {
    if run != [] {
      KilledStays(Step(s, run[0]), run[1..], dead);
    }
  }

  // So the counter alone does not cover a stall: the plug is pulled before the generation
  // moves, and an arm that comes back in between answers for a run that is already dead.
  // `VideoSession.ArrivalIsLive` says what closes that gap inside a session.
  lemma AStallAloneSlipsThrough()
    ensures var s := Step(Step(Step(FRESH, StartRun(true)), BeginArm(0, 1)), PullThePlug);
      && Reply(s, EndArm(0)) == Geometry(0)
      && s.run == Some(0) && 0 in s.killed
  {
  }
}

module VideoPipeline {
  import opened Options
  import opened Generations

  // The pipeline's own fields, and its methods cut at their awaits.
  class VideoDownlink {
    var generation: nat
    var run: Option<nat>
    var built: nat              // how many runs were made: the next one's name
    var draining: bool          // the current run has a reader on its pipe
    var watchdog: bool          // a watchdog is named
    var track: bool             // the track exists; it outlives every rebuild
    var rearms: nat             // how often a watchdog was told to start its budget again
    ghost var s: State

    ghost predicate Valid()
      reads this
    {
      && s.gen == generation && s.run == run && s.built == built
      && (run.Some? ==> run.value < s.built && (draining <==> run.value !in s.killed))
      && (forall r | r in s.killed :: r < s.built)
    }

    constructor ()
      ensures Valid() && s == FRESH && !track
    {
      generation, run, built, draining, watchdog, track := 0, None, 0, false, false, false;
      rearms := 0;
      s := FRESH;
    }

    // `_start_run`: the generation moves first, and stays moved when the build fails.
    method StartRun(ok: bool)
      requires Valid()
      modifies this
      ensures Valid() && s == Step(old(s), Action.StartRun(ok)) && track == old(track)
      ensures generation == old(generation) + 1
      ensures run == if ok then Some(old(built)) else old(run)
    {
      generation := generation + 1;
      if ok {
        run := Some(built);
        built := built + 1;
        draining := true;
        watchdog := true;
      }
      s := Step(s, Action.StartRun(ok));
    }

    // `start`, which makes a track only where there is none yet.
    method Start(ok: bool)
      requires Valid()
      modifies this
      ensures Valid() && s == Step(old(s), Action.StartRun(ok)) && track
    {
      track := true;
      StartRun(ok);
    }

    // `arm` up to its crossing.
    method BeginArm(id: nat, gen: nat) returns (r: Answer)
      requires Valid() && id !in s.crossing
      modifies this
      ensures Valid() && s == Step(old(s), Action.BeginArm(id, gen))
      ensures r == Reply(old(s), Action.BeginArm(id, gen))
      ensures r.StaleArmError? <==> gen != generation
      ensures r.Crossing? <==> gen == generation && run.Some? && draining
      ensures r.Crossing? ==> s.crossing[id] == Arm(gen, run.value)
    {
      r := if gen != generation then StaleArmError
           else if run.None? || !draining then DownlinkNotDrainingError
           else Crossing;
      s := Step(s, Action.BeginArm(id, gen));
    }

    // `arm` once `open_video` has answered; it kept its own generation and run. What a
    // rebuild left armed is to be closed again; what holds gets the whole coming-up budget.
    method EndArm(id: nat, gen: nat, armedOn: nat) returns (r: Answer, closeTap: bool)
      requires Valid() && id in s.crossing && s.crossing[id] == Arm(gen, armedOn)
      modifies this
      ensures Valid() && s == Step(old(s), Action.EndArm(id))
      ensures r == Reply(old(s), Action.EndArm(id))
      ensures closeTap <==> r.StaleArmError?
      ensures r == if gen == generation then Geometry(armedOn) else StaleArmError
      ensures rearms == old(rearms) + if r.Geometry? && watchdog then 1 else 0
    {
      closeTap := gen != generation;
      r := if closeTap then StaleArmError else Geometry(armedOn);
      if !closeTap && watchdog {
        rearms := rearms + 1;
      }
      s := Step(s, Action.EndArm(id));
    }

    // `_pull_the_plug`, its first statement.
    method Kill()
      requires Valid()
      modifies this
      ensures Valid() && s == Step(old(s), PullThePlug) && !draining
      ensures run == old(run) && generation == old(generation)
      ensures run.Some? ==> run.value in s.killed
    {
      draining := false;
      s := Step(s, PullThePlug);
    }

    // `_stop_run` from the moment its watchdog is closed.
    method TakeRun()
      requires Valid()
      modifies this
      ensures Valid() && s == Step(old(s), Action.TakeRun) && run.None? && !watchdog
      ensures generation == old(generation) + if old(run).Some? then 1 else 0
      ensures old(run).Some? ==> old(run.value) in s.killed
    {
      s := Step(s, Action.TakeRun);
      watchdog := false;
      if run.Some? {
        run := None;
        generation := generation + 1;
      }
    }
  }
}

// When the watchdog fires: two budgets, and one question asked of the encoder.
module Watchdogs {

  datatype Mark = Beat(at: real) | Rearm(at: real)

  // Silence is measured from the last mark; a stream that has moved since it was last
  // armed is held to the tighter budget.
  function Budget(marks: seq<Mark>, timeout: real, startup: real): real
    requires marks != []
  {
    if marks[|marks| - 1].Beat? then timeout else startup
  }

  predicate Fires(marks: seq<Mark>, now: real, gone: bool, timeout: real, startup: real)
    requires marks != []
  {
    gone || now - marks[|marks| - 1].at > Budget(marks, timeout, startup)
  }

  // A dead encoder is noticed at the next look, however fresh the last mark.
  lemma AGoneEncoderFires(marks: seq<Mark>, now: real, timeout: real, startup: real)
    requires marks != []
    ensures Fires(marks, now, true, timeout, startup)
  {
  }

  // A beat or a rearm buys a whole budget from its own instant: none of what came before
  // it, however long ago, can make the watchdog fire inside it.
  lemma AMarkBuysABudget(before: seq<Mark>, mark: Mark, now: real, timeout: real, startup: real)
    ensures Fires(before + [mark], now, false, timeout, startup)
       <==> now > mark.at + (if mark.Beat? then timeout else startup)
  {
    assert (before + [mark])[|before|] == mark;
  }

  function Deadline(mark: Mark, timeout: real, startup: real): real {
    mark.at + if mark.Beat? then timeout else startup
  }

  // Looks at most `poll` apart, the first at most `poll` after the mark.
  ghost predicate Polled(mark: Mark, looks: seq<real>, poll: real) {
    && (looks != [] ==> looks[0] <= mark.at + poll)
    && (forall i, j | 0 <= i < |looks| && j == i + 1 && j < |looks| :: looks[j] <= looks[i] + poll)
  }

  // The first look to fire, if one does, comes after the deadline and within one poll of it.
  ghost predicate NoticedAt(marks: seq<Mark>, looks: seq<real>, at: nat, deadline: real, poll: real,
                            timeout: real, startup: real)
    requires marks != [] && at < |looks|
  {
    && Fires(marks, looks[at], false, timeout, startup)
    && deadline < looks[at] <= deadline + poll
    && (forall i | 0 <= i < at :: !Fires(marks, looks[i], false, timeout, startup))
  }

  // Silence is noticed, and in time: when nothing moves after a mark and the looks go on
  // past its deadline, one of them fires, the first that does comes within one poll of the
  // deadline, and none fires before it, whatever the marks that came earlier.
  lemma {:induction false} SilenceIsNoticedInTime(
      before: seq<Mark>, mark: Mark, looks: seq<real>, poll: real, timeout: real, startup: real)
    requires timeout >= 0.0 && startup >= 0.0 && Polled(mark, looks, poll)
    requires looks != [] && looks[|looks| - 1] > Deadline(mark, timeout, startup)
    ensures exists at | 0 <= at < |looks| ::
      NoticedAt(before + [mark], looks, at, Deadline(mark, timeout, startup), poll, timeout, startup)
    decreases |looks|
  {
    var deadline, last, marks := Deadline(mark, timeout, startup), |looks| - 1, before + [mark];
    assert marks[|before|] == mark;
    if at :| 0 <= at < last && looks[at] > deadline {
      var fewer := looks[..at + 1];
      assert Polled(mark, fewer, poll);
      SilenceIsNoticedInTime(before, mark, fewer, poll, timeout, startup);
      var i :| 0 <= i < |fewer| && NoticedAt(marks, fewer, i, deadline, poll, timeout, startup);
      assert NoticedAt(marks, looks, i, deadline, poll, timeout, startup);
    } else {
      assert last > 0 ==> looks[last] <= looks[last - 1] + poll;
      assert NoticedAt(marks, looks, last, deadline, poll, timeout, startup);
    }
  }

  class Watchdog {
    const timeout: real
    const startup: real
    var last: real
    var moved: bool
    ghost var marks: seq<Mark>

    ghost predicate Valid()
      reads this
    {
      marks != [] && last == marks[|marks| - 1].at && moved == marks[|marks| - 1].Beat?
    }

    // Built, and started at once: the clock starts here.
    constructor (timeout: real, startup: real, now: real)
      ensures Valid() && marks == [Mark.Rearm(now)]
      ensures this.timeout == timeout && this.startup == startup
    {
      this.timeout, this.startup := timeout, startup;
      last, moved, marks := now, false, [Mark.Rearm(now)];
    }

    method Beat(now: real)
      requires Valid()
      modifies this
      ensures Valid() && marks == old(marks) + [Mark.Beat(now)]
    {
      last := now;
      moved := true;
      marks := marks + [Mark.Beat(now)];
    }

    method Rearm(now: real)
      requires Valid()
      modifies this
      ensures Valid() && marks == old(marks) + [Mark.Rearm(now)]
    {
      last := now;
      moved := false;
      marks := marks + [Mark.Rearm(now)];
    }

    // `_look`, one reading of the clock against the two fields.
    method Look(now: real, gone: bool) returns (stall: bool)
      requires Valid()
      ensures stall == Fires(marks, now, gone, timeout, startup)
      ensures stall <==> gone || now - last > (if moved then timeout else startup)
    {
      var silent := now - last;
      if gone {
        return true;
      }
      if moved {
        stall := silent > timeout;
      } else {
        stall := silent > startup;
      }
    }
  }
}
