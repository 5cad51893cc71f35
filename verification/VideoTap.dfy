// What becomes of the tap once a session's picture is over: shut for good in every ending
// but one, a cancellation that takes the queued close of `aclose` with it.
module QueuedTap {
  import opened TapWorker

  // Whether these jobs can leave the tap open, an open job always being able to succeed
  // and an abandoned close being passed over unless it has begun.
  predicate MayStay(jobs: seq<Job>, abandoned: set<nat>, begun: bool, open: bool) {
    if jobs == [] then open
    else
      match jobs[0]
      case Open(_, _) => MayStay(jobs[1..], abandoned, false, true)
      case Close(id) => MayStay(jobs[1..], abandoned, false, open && !begun && id in abandoned)
      case Other(_) => MayStay(jobs[1..], abandoned, false, open)
  }

  predicate LeftOpen(w: Work) { MayStay(w.jobs, w.abandoned, w.busy, w.tap.On?) }

  lemma {:induction false} NoOpenNoTap(jobs: seq<Job>, abandoned: set<nat>, begun: bool)
    requires forall i | 0 <= i < |jobs| :: !jobs[i].Open?
    ensures !MayStay(jobs, abandoned, begun, false)
  {
    if jobs != [] { NoOpenNoTap(jobs[1..], abandoned, false); }
  }

  lemma {:induction false} OpenHelps(jobs: seq<Job>, abandoned: set<nat>, begun: bool, open: bool)
    requires MayStay(jobs, abandoned, begun, open)
    ensures MayStay(jobs, abandoned, begun, true)
  {
    if jobs != [] && !jobs[0].Open? {
      var still := jobs[0].Other? || (!begun && jobs[0].id in abandoned);
      if still && open {
        OpenHelps(jobs[1..], abandoned, false, true);
      } else if still {
        OpenHelps(jobs[1..], abandoned, false, false);
      }
    }
  }

  lemma {:induction false} Behind(jobs: seq<Job>, abandoned: set<nat>, begun: bool, open: bool, job: Job)
    requires !job.Open?
    ensures MayStay(jobs + [job], abandoned, begun, open) ==> MayStay(jobs, abandoned, begun, open)
    ensures job.Close? && job.id !in abandoned ==> !MayStay(jobs + [job], abandoned, begun, open)
  {
    if jobs == [] {
      assert jobs + [job] == [job];
      var kept := open && (job.Close? ==> !begun && job.id in abandoned);
      assert [job][1..] == [];
      assert MayStay([job], abandoned, begun, open) == MayStay([], abandoned, false, kept);
    } else {
      assert (jobs + [job])[1..] == jobs[1..] + [job];
      Behind(jobs[1..], abandoned, false, true, job);
      Behind(jobs[1..], abandoned, false, false, job);
    }
  }

  // Nothing but a new open, or giving up one more job, can bring an open tap back.
  lemma LeftOpenKept(w: Work, c: Change)
    requires May(w, c) && !c.Opens? && !c.Abandons? && LeftOpen(After(w, c))
    ensures LeftOpen(w)
  {
    match c
    case Closes => Behind(w.jobs, w.abandoned, w.busy, w.tap.On?, Close(w.next));
    case Others => Behind(w.jobs, w.abandoned, w.busy, w.tap.On?, Other(w.next));
    case Takes => HeadBegins(w);
    case Skips => HeadPasses(w);
    case Finishes(verdict) => HeadEnds(w, verdict);
    case Releases => OpenHelps(w.jobs, w.abandoned, w.busy, false);
    case Same =>
  }

  lemma HeadBegins(w: Work)
    requires May(w, Takes) && LeftOpen(After(w, Takes))
    ensures LeftOpen(w)
  {
    if w.jobs[0].Close? { OpenHelps(w.jobs[1..], w.abandoned, false, false); }
  }

  lemma HeadPasses(w: Work)
    requires May(w, Skips) && LeftOpen(After(w, Skips))
    ensures LeftOpen(w)
  {
    if w.jobs[0].Open? { OpenHelps(w.jobs[1..], w.abandoned, false, w.tap.On?); }
  }

  lemma HeadEnds(w: Work, verdict: Verdict)
    requires May(w, Finishes(verdict)) && LeftOpen(Finished(w, verdict))
    ensures LeftOpen(w)
  {
    if w.jobs[0].Open? { OpenHelps(w.jobs[1..], w.abandoned, false, Finished(w, verdict).tap.On?); }
  }

  lemma QuietIsShut(w: Work)
    requires Quiet(w)
    ensures !LeftOpen(w)
  {
    NoOpenNoTap(w.jobs, w.abandoned, w.busy);
  }

  // The worker has begun this close, or has run it.
  predicate Begun(w: Work, id: nat) {
    id in w.done || (w.busy && w.jobs != [] && w.jobs[0] == Close(id))
  }

  lemma BegunIsShut(w: Work, id: nat)
    requires Sealing(w, id) && Begun(w, id)
    ensures !LeftOpen(After(w, Abandons(id)))
  {
    var given := After(w, Abandons(id));
    if id in w.done {
      QuietIsShut(given);
    } else {
      assert forall j | 0 < j < |w.jobs| :: !w.jobs[j].Open?;
      NoOpenNoTap(given.jobs[1..], given.abandoned, false);
    }
  }
}

module SessionTap {
  import opened Options
  import opened TapWorker
  import opened QueuedTap
  import opened VideoSession

  // ---- what the asking leaves behind -------------------------------------------

  // What the asking knows of the tap: shut while it sleeps on the current run, shut until
  // its own open is through, and shut if that open was anything but fine.
  ghost predicate Asked(work: Work, asker: Asker, gen: nat) {
    && asker.gen <= gen
    && (asker.at.Raced? ==> asker.gen < gen)
    && (asker.at.Sleeping? && asker.gen == gen ==> Quiet(work))
    && (asker.at.Opening? ==> Pending(work, asker.at.id))
  }

  // This open and no other, with the tap shut unless it went well.
  ghost predicate Pending(work: Work, id: nat) {
    && (forall i | 0 <= i < |work.jobs| && work.jobs[i].Open? :: work.jobs[i].id == id)
    && (id !in work.done || !work.done[id].Fine? ==> work.tap.Shut?)
  }

  lemma FailedIsQuiet(work: Work, id: nat)
    requires Numbered(work) && Pending(work, id) && id in work.done && !work.done[id].Fine?
    ensures Quiet(work)
  {
  }

  lemma PendingKept(work: Work, id: nat, c: Change)
    requires Numbered(work) && Pending(work, id) && May(work, c) && !c.Opens?
    ensures Pending(After(work, c), id)
  {
  }

  lemma AskedUnder(work: Work, c: Change, asker: Asker, gen: nat)
    requires Numbered(work) && Asked(work, asker, gen) && May(work, c) && !c.Opens?
    ensures Asked(After(work, c), asker, gen)
  {
    if asker.at.Opening? { PendingKept(work, asker.at.id, c); }
    if Quiet(work) { QuietKept(work, c); }
  }

  // Nobody has taken the run down while the asking is still named.
  predicate Untouched(s: State) {
    s.asker.task ==>
      && s.pipe == Pipeline(s.asker.gen, Some(s.asker.gen), {})
      && s.guard == Guard(Watching, false, true) && s.closer.Idle? && !s.shown.trackStopped
  }

  lemma UntouchedKept(s: State, a: Action)
    requires Hushed(s) && Untouched(s) && Enabled(s, a)
    ensures Untouched(Step(s, a))
  {
  }

  // Somebody past this point: the asking died or gave up, the watchdog was told to go or is
  // gone, or `aclose` came to an end of its own.
  predicate Spent(s: State) {
    || s.asker.at.LosingDog? || s.asker.at.LosingRun? || s.asker.at == Over(true)
    || s.guard.cancelled || s.guard.at.Gone?
    || s.closer.Returned? || s.closer.Raised?
  }

  // The tap is closed, no open is queued, and nobody is left who could submit one.
  ghost predicate ShutForGood(s: State) { Quiet(s.work) && !CanOpen(s.asker) }

  ghost predicate Calm(s: State) {
    && Inv(s) && Unknotted(s) && Untouched(s)
    && Asked(s.work, s.asker, s.pipe.gen)
    && (Spent(s) ==> ShutForGood(s))
  }

  // ---- what every step keeps of it ---------------------------------------------

  lemma AskedWait(s: State)
    requires Numbered(s.work) && Asked(s.work, s.asker, s.pipe.gen) && WaitReady(s)
    ensures var t := RunWait(s); Asked(t.work, t.asker, t.pipe.gen)
  {
    var t := RunWait(s);
    match s.asker.at
    case Opening(id, _) =>
      if id in s.work.done && !s.work.done[id].Fine? { FailedIsQuiet(s.work, id); }
    case _ =>
  }

  lemma AskedFire(s: State)
    requires Numbered(s.work) && Asked(s.work, s.asker, s.pipe.gen)
    ensures var t := Fire(s); Asked(t.work, t.asker, t.pipe.gen)
  {
    var told := Stopped(s.asker);
    var work := Unwaited(s.work, s.asker);
    if work != s.work { AskedUnder(s.work, Abandons(s.asker.at.id), s.asker, s.pipe.gen); }
    NumberedKept(s.work, Same);
    assert Numbered(work);
    AskedUnder(work, Closes, told, s.pipe.gen);
  }

  lemma AskedDog(s: State)
    requires Numbered(s.work) && Asked(s.work, s.asker, s.pipe.gen) && DogReady(s)
    ensures var t := RunDog(s); Asked(t.work, t.asker, t.pipe.gen)
  {
    AskedUnder(s.work, Closes, s.asker, s.pipe.gen);
  }

  lemma AskedCloser(s: State)
    requires Numbered(s.work) && Asked(s.work, s.asker, s.pipe.gen) && CloserReady(s)
    ensures var t := RunCloser(s); Asked(t.work, t.asker, t.pipe.gen)
  {
    match s.closer
    case Idle =>
      var work := Unwaited(s.work, s.asker);
      if work != s.work { AskedUnder(s.work, Abandons(s.asker.at.id), s.asker, s.pipe.gen); }
      assert Numbered(work);
      AskedUnder(work, Closes, Stopped(s.asker), s.pipe.gen);
    case Hushing => AskedUnder(s.work, Closes, s.asker, s.pipe.gen);
    case Shutting(_) =>
      if s.guard.at.Closing? { AskedUnder(s.work, Abandons(s.guard.at.id), s.asker, s.pipe.gen); }
    case _ =>
  }

  lemma AskedCut(s: State)
    requires Numbered(s.work) && Asked(s.work, s.asker, s.pipe.gen)
    ensures var t := CutCloser(s); Asked(t.work, t.asker, t.pipe.gen)
  {
    if s.closer.Shutting? {
      AskedUnder(s.work, Abandons(s.closer.id), s.asker, s.pipe.gen);
    } else if s.guard.at.Closing? {
      AskedUnder(s.work, Abandons(s.guard.at.id), s.asker, s.pipe.gen);
    }
  }

  lemma AskedKept(s: State, a: Action)
    requires Numbered(s.work) && Asked(s.work, s.asker, s.pipe.gen) && Enabled(s, a)
    ensures var t := Step(s, a); Asked(t.work, t.asker, t.pipe.gen)
  {
    match a
    case StepWait => AskedWait(s);
    case StepDog => AskedDog(s);
    case DogFires => AskedFire(s);
    case StepCloser => AskedCloser(s);
    case CancelCloser => AskedCut(s);
    case Worker(change) => AskedUnder(s.work, change, s.asker, s.pipe.gen);
    case _ =>
  }

  // With nobody to open it a quiet tap stays quiet.
  lemma ShutStays(s: State, a: Action)
    requires Hushed(s) && ShutForGood(s) && Enabled(s, a)
    ensures ShutForGood(Step(s, a))
  {
    HushedKept(s, a);
    if a.Worker? { QuietKept(s.work, a.change); }
  }

  lemma SpentByWait(s: State)
    requires Calm(s) && !Spent(s) && WaitReady(s) && Spent(RunWait(s))
    ensures ShutForGood(RunWait(s))
  {
    assert s.asker.at.Opening?;
    FailedIsQuiet(s.work, s.asker.at.id);
  }

  lemma SpentByOthers(s: State, a: Action)
    requires Calm(s) && !Spent(s) && Enabled(s, a) && !a.StepWait? && Spent(Step(s, a))
    ensures ShutForGood(Step(s, a))
  {
    StepKeeps(s, a);
  }

  lemma CalmKept(s: State, a: Action)
    requires Calm(s) && Enabled(s, a)
    ensures Calm(Step(s, a))
  {
    StepKeeps(s, a);
    UnknottedKept(s, a);
    UntouchedKept(s, a);
    AskedKept(s, a);
    if ShutForGood(s) {
      ShutStays(s, a);
    } else if Spent(Step(s, a)) {
      if a.StepWait? { SpentByWait(s); } else { SpentByOthers(s, a); }
    }
  }

  lemma {:induction false} RunCalm(s: State, run: seq<Action>)
    requires Calm(s) && Feasible(s, run)
    ensures Calm(Run(s, run))
    decreases |run|
  {
    if run != [] {
      CalmKept(s, run[0]);
      RunCalm(Step(s, run[0]), run[1..]);
    }
  }

  lemma {:induction false} RunShut(s: State, run: seq<Action>)
    requires Hushed(s) && ShutForGood(s) && Feasible(s, run)
    ensures ShutForGood(Run(s, run))
    decreases |run|
  {
    if run != [] {
      HushedKept(s, run[0]);
      ShutStays(s, run[0]);
      RunShut(Step(s, run[0]), run[1..]);
    }
  }

  // ---- shut for good -----------------------------------------------------------

  // `aclose` has returned or raised, or the watchdog's task is over: fired or cancelled,
  // its reaction at its end, broken off or dead on its first step.
  predicate Ended(s: State) { s.closer.Returned? || s.closer.Raised? || s.guard.at.Gone? }

  // Whatever was in flight when they began, an open already running included: once
  // `aclose` has returned or raised, or the watchdog's task has ended in any way, the tap
  // is closed, and it stays closed through everything that can happen afterwards.
  lemma TapStaysShut(gen: nat, run: seq<Action>, later: seq<Action>)
    requires Feasible(Armed(gen), run) && Ended(Run(Armed(gen), run))
    requires Feasible(Run(Armed(gen), run), later)
    ensures ShutForGood(Run(Run(Armed(gen), run), later))
  {
    RunCalm(Armed(gen), run);
    RunShut(Run(Armed(gen), run), later);
  }

  // ---- the endings short of a return -------------------------------------------

  // It leaves early in exactly two cases. It raises when, as it begins, the asking has
  // just died of an error nobody expects and its done-callback has not run yet; and it
  // goes with a cancellation that reaches it while it waits for the worker or the encoder.
  lemma AcloseRaisesExactlyWhen(gen: nat, run: seq<Action>, a: Action)
    requires Feasible(Armed(gen), run) && Enabled(Run(Armed(gen), run), a)
    ensures var s := Run(Armed(gen), run);
      !LeftEarly(s.closer) ==> (LeftEarly(Step(s, a).closer) <==>
        || (a.StepCloser? && s.closer.Idle? && s.asker.task && s.asker.at == Over(true))
        || (a.CancelCloser? && (s.closer.Shutting? || s.closer.Reaping?)))
  {
    RunUnknotted(Armed(gen), run);
  }

  // The run is up as it was built, its watchdog on it and its track open.
  predicate RunUp(s: State, gen: nat) {
    && s.pipe == Pipeline(gen, Some(gen), {})
    && s.guard == Guard(Watching, false, true) && !s.shown.trackStopped
  }

  lemma {:induction false} UpUntilItStalls(s: State, run: seq<Action>, gen: nat)
    requires s.closer.Raised? && s.asker.at.Over? && !s.asker.task && RunUp(s, gen)
    requires Feasible(s, run) && forall i | 0 <= i < |run| :: !run[i].DogFires?
    ensures RunUp(Run(s, run), gen)
    decreases |run|
  {
    if run != [] {
      assert Step(s, run[0]).pipe == s.pipe;
      UpUntilItStalls(Step(s, run[0]), run[1..], gen);
    }
  }

  lemma RaisesOverTheRun(s: State)
    requires Calm(s) && !s.closer.Raised? && CloserReady(s) && RunCloser(s).closer.Raised?
    ensures var t := RunCloser(s);
      && t.asker.at.Over? && !t.asker.task && t.asker.gen == s.asker.gen
      && RunUp(t, s.asker.gen) && ShutForGood(t)
  {
    assert s.closer.Idle?;
  }

  // What an `aclose` that raises leaves behind. The tap is shut and stays shut; what is not
  // taken down is the pipeline: its run, the encoder and the watchdog on it, and the track
  // that waits for packets, all up for as long as nothing stalls.
  lemma RaisingLeavesTheRunUp(gen: nat, run: seq<Action>, later: seq<Action>)
    requires Feasible(Armed(gen), run)
    requires var s := Run(Armed(gen), run);
      !s.closer.Raised? && Enabled(s, StepCloser) && RunCloser(s).closer.Raised?
    requires Feasible(RunCloser(Run(Armed(gen), run)), later)
    ensures var t := RunCloser(Run(Armed(gen), run));
      && ShutForGood(Run(t, later))
      && ((forall i | 0 <= i < |later| :: !later[i].DogFires?) ==> RunUp(Run(t, later), t.asker.gen))
  {
    RunCalm(Armed(gen), run);
    var s := Run(Armed(gen), run);
    var t := RunCloser(s);
    RaisesOverTheRun(s);
    HushedKept(s, StepCloser);
    RunShut(t, later);
    if forall i | 0 <= i < |later| :: !later[i].DogFires? {
      UpUntilItStalls(t, later, t.asker.gen);
    }
  }

  // The stall reaction dies on its first step in one case alone: the watchdog fires on an
  // asking that has just died. The tap is shut by then, and what stays behind is the run,
  // its encoder killed and nobody reaping it. Otherwise the reaction goes on to close the
  // tap, at once or as soon as the asking has ended.
  lemma TheReactionClosesExactlyWhen(gen: nat, run: seq<Action>)
    requires Feasible(Armed(gen), run)
    ensures var s := Run(Armed(gen), run);
      && (Enabled(s, DogFires) ==>
            && (Fire(s).guard.at.Gone? <==> s.asker.task && s.asker.at == Over(true))
            && (Fire(s).guard.at.Gone? ==>
                  && ShutForGood(Fire(s)) && !Fire(s).shown.trackStopped
                  && Fire(s).pipe == Pipeline(s.asker.gen, Some(s.asker.gen), {s.asker.gen}))
            && (!Fire(s).guard.at.Gone? ==> Fire(s).guard.at.Closing? || Fire(s).guard.at.Waiting?))
      && (s.guard.at.Waiting? && DogReady(s) ==> RunDog(s).guard.at.Closing?)
  {
    RunCalm(Armed(gen), run);
    var s := Run(Armed(gen), run);
    if Enabled(s, DogFires) { CalmKept(s, DogFires); }
  }

  // ---- the ending that can leave it open ---------------------------------------

  // From here the worker can come to rest with the tap open.
  ghost predicate CanRestOpen(s: State) {
    exists later :: Feasible(s, later) && Run(s, later).work.jobs == [] && Run(s, later).work.tap.On?
  }

  // The worker runs everything well, passing over the closes that were given up.
  function Hopeful(w: Work): Change
    requires w.jobs != []
  {
    if w.busy then Finishes(Fine)
    else if w.jobs[0].Close? && w.jobs[0].id in w.abandoned then Skips
    else Takes
  }

  lemma {:induction false} RestsOpen(s: State)
    requires LeftOpen(s.work)
    ensures CanRestOpen(s)
    decreases WorkLeft(s.work)
  {
    if s.work.jobs == [] {
      assert Feasible(s, []) && Run(s, []) == s;
    } else {
      var a := Worker(Hopeful(s.work));
      var t := Step(s, a);
      RestsOpen(t);
      var later :| Feasible(t, later) && Run(t, later).work.jobs == [] && Run(t, later).work.tap.On?;
      Then(s, a, later);
    }
  }

  // Cut short with nothing queued that could leave the tap open.
  ghost predicate Safe(s: State) { Inv(s) && s.closer.CutShort? && !LeftOpen(s.work) }

  lemma SafeKept(s: State, a: Action)
    requires Safe(s) && Enabled(s, a)
    ensures Safe(Step(s, a))
  {
    StepKeeps(s, a);
    var t := Step(s, a);
    var change := if a.Worker? then a.change else if t.work == s.work then Same else Closes;
    assert t.work == After(s.work, change);
    if LeftOpen(t.work) { LeftOpenKept(s.work, change); }
  }

  lemma {:induction false} SafeThrough(s: State, run: seq<Action>)
    requires Safe(s) && Feasible(s, run)
    ensures Safe(Run(s, run))
    decreases |run|
  {
    if run != [] {
      SafeKept(s, run[0]);
      SafeThrough(Step(s, run[0]), run[1..]);
    }
  }

  // `aclose` waits for a close the worker has not begun, and without that close what is
  // ahead of it could leave the tap open.
  predicate Exposed(s: State) {
    && s.closer.Shutting? && !Begun(s.work, s.closer.id)
    && LeftOpen(After(s.work, Abandons(s.closer.id)))
  }

  lemma CutIsSafe(s: State)
    requires Inv(s) && (s.closer.Shutting? || s.closer.Reaping?) && !Exposed(s)
    ensures Safe(CutCloser(s))
  {
    StepKeeps(s, CancelCloser);
    if s.closer.Reaping? {
      QuietIsShut(s.work);
    } else if Begun(s.work, s.closer.id) {
      BegunIsShut(s.work, s.closer.id);
    }
  }

  // A cancellation that makes `aclose` leave lets the tap stay open exactly when it finds
  // the close of `aclose` not begun, behind an open tap or an open still to be run, and
  // with no other close that will shut it.
  lemma CutLeavesItOpenExactlyWhen(gen: nat, run: seq<Action>)
    requires Feasible(Armed(gen), run)
    requires var s := Run(Armed(gen), run); s.closer.Shutting? || s.closer.Reaping?
    ensures var s := Run(Armed(gen), run); CanRestOpen(CutCloser(s)) <==> Exposed(s)
  {
    Reachable(gen, run);
    var s := Run(Armed(gen), run);
    if Exposed(s) {
      RestsOpen(CutCloser(s));
    } else {
      CutIsSafe(s);
      SafeNeverOpen(CutCloser(s));
    }
  }

  lemma SafeNeverOpen(s: State)
    requires Safe(s)
    ensures !CanRestOpen(s)
  {
    forall later | Feasible(s, later) ensures !(Run(s, later).work.jobs == [] && Run(s, later).work.tap.On?) {
      SafeThrough(s, later);
    }
  }

  // Somewhere in this run such a cancellation came.
  predicate WasCut(s: State, run: seq<Action>)
    requires Feasible(s, run)
    decreases |run|
  {
    run != [] && ((run[0].CancelCloser? && Exposed(s)) || WasCut(Step(s, run[0]), run[1..]))
  }

  lemma {:induction false} OpenWasCut(s: State, run: seq<Action>)
    requires Calm(s) && !Back(s.closer) && Feasible(s, run)
    requires Back(Run(s, run).closer) && LeftOpen(Run(s, run).work)
    ensures WasCut(s, run)
    decreases |run|
  {
    var a := run[0];
    var t := Step(s, a);
    CalmKept(s, a);
    if !Back(t.closer) {
      OpenWasCut(t, run[1..]);
    } else if !t.closer.CutShort? {
      RunShut(t, run[1..]);
      QuietIsShut(Run(s, run).work);
    } else if !Exposed(s) {
      CutIsSafe(s);
      SafeThrough(t, run[1..]);
    }
  }

  // So once `aclose` is over, in whichever way: a tap still open, or an open still to come
  // with no close behind it, is the work of such a cancellation and of nothing else.
  lemma AnOpenTapWasCut(gen: nat, run: seq<Action>)
    requires Feasible(Armed(gen), run)
    requires var t := Run(Armed(gen), run); Back(t.closer) && LeftOpen(t.work)
    ensures WasCut(Armed(gen), run)
  {
    OpenWasCut(Armed(gen), run);
  }

  // ---- runs to each of these endings -------------------------------------------

  // The first open fails in an unexpected way while it is being asked for.
  const DIED := State(Pipeline(1, Some(1), {}), Work([], false, map[0 := Broken], {}, 1, Shut),
                      Asker(Over(true), false, true, true, 1), Guard(Watching, false, true), Idle,
                      Shown(false, false, false, false))

  lemma AnAskingCanDie()
    ensures var run := [StepWait] + ([Worker(Takes)] + ([Worker(Finishes(Broken))] + ([StepWait] + [])));
      Feasible(Armed(1), run) && Run(Armed(1), run) == DIED
  {
    var s1 := RunWait(Armed(1));
    var s2 := Step(s1, Worker(Takes));
    var s3 := Step(s2, Worker(Finishes(Broken)));
    Then(s3, StepWait, []);
    Then(s2, Worker(Finishes(Broken)), [StepWait] + []);
    Then(s1, Worker(Takes), [Worker(Finishes(Broken))] + ([StepWait] + []));
    Then(Armed(1), StepWait, [Worker(Takes)] + ([Worker(Finishes(Broken))] + ([StepWait] + [])));
  }

  // And the session is closed before its done-callback has run.
  lemma AcloseCanRaise()
    ensures var run := [CloseSession] + ([StepCloser] + []);
      && Feasible(DIED, run)
      && var s := Run(DIED, run);
        s.closer.Raised? && s.work.tap.Shut? && s.work.jobs == [] && RunUp(s, 1)
  {
    var s1 := Step(DIED, CloseSession);
    Then(s1, StepCloser, []);
    Then(DIED, CloseSession, [StepCloser] + []);
  }

  // Or the watchdog fires before it has.
  lemma AReactionCanDie()
    ensures var run := [DogFires] + [];
      && Feasible(DIED, run)
      && var s := Run(DIED, run);
        && s.guard == Guard(Gone(false), false, true) && s.pipe == Pipeline(1, Some(1), {1})
        && s.work.tap.Shut? && s.work.jobs == []
  {
    Then(DIED, DogFires, []);
  }

  // After an open that went well.
  const ARRIVED := State(Pipeline(1, Some(1), {}), Work([], false, map[0 := Fine], {}, 1, On(1)),
                         Asker(Over(false), false, true, false, 1), Guard(Watching, false, true), Idle,
                         Shown(true, false, false, false))

  lemma APictureCanArrive()
    ensures var run := [StepWait] + ([Worker(Takes)] + ([Worker(Finishes(Fine))] + ([StepWait] + [])));
      Feasible(Armed(1), run) && Run(Armed(1), run) == ARRIVED
  {
    var s1 := RunWait(Armed(1));
    var s2 := Step(s1, Worker(Takes));
    var s3 := Step(s2, Worker(Finishes(Fine)));
    Then(s3, StepWait, []);
    Then(s2, Worker(Finishes(Fine)), [StepWait] + []);
    Then(s1, Worker(Takes), [Worker(Finishes(Fine))] + ([StepWait] + []));
    Then(Armed(1), StepWait, [Worker(Takes)] + ([Worker(Finishes(Fine))] + ([StepWait] + [])));
  }

  // The session is closed, the close of the tap is queued, and the cancellation comes: the
  // close is dropped from the queue, and the tap stays open on a closed session.
  lemma AcloseCanBeCut()
    ensures var run := [CloseSession] + ([StepCloser] + ([CancelCloser] + ([Worker(Skips)] + [])));
      && Feasible(ARRIVED, run)
      && var s := Run(ARRIVED, run);
        s.closer.CutShort? && s.work.tap == On(1) && s.work.jobs == [] && s.asker.at.Over?
  {
    var s1 := Step(ARRIVED, CloseSession);
    var s2 := RunCloser(s1);
    assert s2.work.jobs == [Close(1)];
    var s3 := CutCloser(s2);
    Then(s3, Worker(Skips), []);
    Then(s2, CancelCloser, [Worker(Skips)] + []);
    Then(s1, StepCloser, [CancelCloser] + ([Worker(Skips)] + []));
    Then(ARRIVED, CloseSession, [StepCloser] + ([CancelCloser] + ([Worker(Skips)] + [])));
  }
}
