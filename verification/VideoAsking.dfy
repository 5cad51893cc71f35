// The retrying wait over whole runs: what ends it, that it goes on asking until something
// does, and what each ending takes down with it.
module SessionAsking {
  import opened Options
  import opened TapWorker
  import opened VideoSession
  import opened SessionTap

  // An open came back with an answer that ends the asking: no video line, or an error.
  ghost predicate Ruled(w: Work) {
    exists id :: id in w.done && (w.done[id].NoVideo? || w.done[id].Broken?)
  }

  lemma RuledKept(w: Work, c: Change)
    requires Numbered(w) && Ruled(w) && May(w, c)
    ensures Ruled(After(w, c))
  {
    var id :| id in w.done && (w.done[id].NoVideo? || w.done[id].Broken?);
    assert id in After(w, c).done && After(w, c).done[id] == w.done[id];
  }

  predicate Losing(w: Asker) { w.at.LosingDog? || w.at.LosingRun? }

  predicate Down(s: State) { s.pipe.run.None? && !s.shown.geometry }

  // The run whose plug the reaction pulled.
  predicate Unplugged(p: Pipeline) { p.run.Some? ==> p.run.value in p.killed }

  // No watchdog of this session is left to fire.
  predicate Unleashed(d: Guard) { !d.named && (d.at.Watching? ==> d.cancelled) }

  // Why the asking is not asking, and what has been taken down on each way out.
  ghost predicate Reasons(s: State) {
    && (s.asker.at.Over? ==> s.shown.geometry || Told(s) || Ruled(s.work))
    && (s.asker.at == Over(true) ==> Ruled(s.work))
    && (s.asker.cancelled || (!s.asker.waiting && Asking(s.asker)) ==> Told(s))
    && (Losing(s.asker) ==> Ruled(s.work) && !s.shown.geometry)
    && (s.guard.cancelled && s.closer.Idle? ==> s.guard.at.Watching? || s.guard.at.Gone?)
    && (s.shown.geometry ==> s.asker.at == Over(false))
    && (s.asker.at == Over(true) && s.guard.at.Watching? && s.closer.Idle? ==> s.asker.waiting)
    && (s.asker.waiting ==> s.guard.at.Watching? && !s.guard.cancelled)
  }

  ghost predicate Taken(s: State) {
    && (if s.pipe.run.Some? then s.pipe.run == Some(s.asker.gen) else s.asker.gen in s.pipe.killed)
    && (s.closer.Reaping? || s.closer.Returned? ==> Unleashed(s.guard))
    && (s.closer.Leashing? ==> !s.guard.named)
    && (!s.guard.named && s.guard.at.Watching? ==> s.guard.cancelled)
    && (s.asker.at.LosingRun? ==> s.pipe.run.None?)
    && (s.guard.at.Waiting? || s.guard.at.Closing? ==> Unplugged(s.pipe))
    && (s.guard.at.Dropping? || s.guard.at == Gone(true) ==> Down(s))
    && (s.guard.at == Gone(true) ==> s.shown.trackStopped)
    && (s.closer.Reaping? || s.closer.Returned? ==> s.pipe.run.None?)
    && (s.closer.Returned? ==> s.shown.trackStopped)
    && (s.asker.at == Over(false) && !s.shown.geometry && !Told(s) ==>
          s.pipe.run.None? && s.shown.trackStopped)
  }

  lemma ReasonsOfWait(s: State)
    requires Calm(s) && Reasons(s) && WaitReady(s)
    ensures Reasons(RunWait(s))
  {
  }

  lemma ReasonsOfDog(s: State)
    requires Calm(s) && Reasons(s) && DogReady(s)
    ensures Reasons(RunDog(s))
  {
  }

  lemma ReasonsOfFire(s: State)
    requires Calm(s) && Reasons(s) && Enabled(s, DogFires)
    ensures Reasons(Fire(s))
  {
    assert Fire(s).work.done == s.work.done;
  }

  lemma ReasonsOfCloser(s: State)
    requires Calm(s) && Reasons(s) && CloserReady(s)
    ensures Reasons(RunCloser(s))
  {
    assert RunCloser(s).work.done == s.work.done;
  }

  lemma ReasonsOfCut(s: State)
    requires Calm(s) && Reasons(s)
    ensures Reasons(CutCloser(s))
  {
  }

  lemma ReasonsKept(s: State, a: Action)
    requires Calm(s) && Reasons(s) && Enabled(s, a)
    ensures Reasons(Step(s, a))
  {
    match a
    case StepWait => ReasonsOfWait(s);
    case StepDog => ReasonsOfDog(s);
    case DogFires => ReasonsOfFire(s);
    case StepCloser => ReasonsOfCloser(s);
    case CancelCloser => ReasonsOfCut(s);
    case Worker(change) => if Ruled(s.work) { RuledKept(s.work, change); }
    case _ => assert Step(s, a).work == s.work;
  }

  lemma TakenByWait(s: State)
    requires Calm(s) && Reasons(s) && Taken(s) && WaitReady(s)
    ensures Taken(RunWait(s))
  {
  }

  lemma TakenByDog(s: State)
    requires Calm(s) && Reasons(s) && Taken(s)
    ensures Enabled(s, StepDog) ==> Taken(RunDog(s))
    ensures Enabled(s, DogFires) ==> Taken(Fire(s))
  {
  }

  lemma TakenByCloser(s: State)
    requires Calm(s) && Reasons(s) && Taken(s) && CloserReady(s)
    ensures Taken(RunCloser(s))
  {
  }

  lemma TakenByCut(s: State)
    requires Calm(s) && Reasons(s) && Taken(s)
    ensures Taken(CutCloser(s))
  {
  }

  lemma TakenAside(s: State, a: Action)
    requires Taken(s) && Enabled(s, a)
    requires a.Forget? || a.CloseSession? || a.VoiceStops? || a.Worker?
    ensures Taken(Step(s, a))
  {
    var t := Step(s, a);
    assert t.pipe == s.pipe && t.guard == s.guard && t.closer == s.closer && t.asker.at == s.asker.at;
  }

  lemma TakenKept(s: State, a: Action)
    requires Calm(s) && Reasons(s) && Taken(s) && Enabled(s, a)
    ensures Taken(Step(s, a))
  {
    match a
    case StepWait => TakenByWait(s);
    case StepDog => TakenByDog(s);
    case DogFires => TakenByDog(s);
    case StepCloser => TakenByCloser(s);
    case CancelCloser => TakenByCut(s);
    case _ => TakenAside(s, a);
  }

  lemma {:induction false} Through(s: State, run: seq<Action>)
    requires Calm(s) && Reasons(s) && Taken(s) && Feasible(s, run)
    ensures var t := Run(s, run); Calm(t) && Reasons(t) && Taken(t)
    decreases |run|
  {
    if run != [] {
      CalmKept(s, run[0]);
      ReasonsKept(s, run[0]);
      TakenKept(s, run[0]);
      Through(Step(s, run[0]), run[1..]);
    }
  }

  // The asking is over for a reason only: a picture is shown; an open found no video line,
  // or failed in a way nobody expects; or somebody outside told it to stop. A refusal is no
  // reason, however many there were.
  lemma TheAskingEndsForAReason(gen: nat, run: seq<Action>)
    requires Feasible(Armed(gen), run)
    ensures var s := Run(Armed(gen), run);
      && (s.asker.at.Over? ==> s.shown.geometry || Told(s) || Ruled(s.work))
      && (!s.asker.waiting && !s.shown.geometry && !Told(s) ==> Ruled(s.work))
  {
    Through(Armed(gen), run);
  }

  // And until then it goes on. While a session waits for its picture, an asking that has not
  // died of an error is asleep or has an open under way; asleep, its next step submits an
  // open on the pipeline's own living run; and a refusal sends it back to sleep, still
  // waiting.
  lemma TheAskingGoesOn(gen: nat, run: seq<Action>)
    requires Feasible(Armed(gen), run) && Run(Armed(gen), run).asker.waiting
    ensures var s := Run(Armed(gen), run); var at := s.asker.at;
      && (at.Sleeping? || at.Opening? || at == Over(true))
      && (at.Sleeping? ==>
            && s.pipe.run.Some? && s.pipe.run.value !in s.pipe.killed
            && RunWait(s).work.jobs == s.work.jobs + [Open(s.work.next, s.pipe.run.value)]
            && RunWait(s).asker.at == Opening(s.work.next, s.pipe.run.value))
      && (at.Opening? && at.id in s.work.done && s.work.done[at.id].Refused? ==>
            RunWait(s).asker.at.Sleeping? && RunWait(s).asker.waiting)
  {
    Through(Armed(gen), run);
  }

  // So a session that says it waits is asking, but for one case: an asking that died of an
  // error leaves the flag up, and it stays up until the watchdog fires or `aclose` begins.
  lemma ADeadAskingReadsWaiting(gen: nat, run: seq<Action>)
    requires Feasible(Armed(gen), run)
    ensures var s := Run(Armed(gen), run);
      s.asker.waiting && s.asker.at.Over?
      <==> s.asker.at == Over(true) && s.guard.at.Watching? && s.closer.Idle?
  {
    Through(Armed(gen), run);
  }

  // Where a cancellation of `aclose` goes: nowhere while it waits for the asking; on to the
  // watchdog's task while it waits for that; and otherwise `aclose` itself leaves.
  lemma WhereACancellationGoes(s: State)
    requires Held(s.closer)
    ensures var t := CutCloser(s);
      && (s.closer.Hushing? ==> t == s)
      && (s.closer.Leashing? ==> t.closer == s.closer && (s.guard.at.Gone? || t.guard.cancelled))
      && (s.closer.Shutting? || s.closer.Reaping? ==> t.closer.CutShort?)
      && (s.closer.Shutting? ==> s.closer.id in t.work.abandoned)
  {
  }

  // What the session was told, and nothing else, is in its two flags.
  lemma {:induction false} TheFlagsFollow(s: State, run: seq<Action>)
    requires Feasible(s, run)
    ensures Run(s, run).shown.closed <==> s.shown.closed || CloseSession in run
    ensures Run(s, run).shown.voiceLost <==> s.shown.voiceLost || VoiceStops in run
    decreases |run|
  {
    if run != [] {
      FlagsOfStep(s, run[0]);
      TheFlagsFollow(Step(s, run[0]), run[1..]);
    }
  }

  lemma FlagsOfStep(s: State, a: Action)
    requires Enabled(s, a)
    ensures Step(s, a).shown.closed == (s.shown.closed || a == CloseSession)
    ensures Step(s, a).shown.voiceLost == (s.shown.voiceLost || a == VoiceStops)
  {
    match a
    case StepWait => assert RunWait(s).shown.closed == s.shown.closed;
    case StepCloser => assert RunCloser(s).shown.closed == s.shown.closed;
    case _ =>
  }

  // What the endings take down. A reaction at its end and an `aclose` that returned leave no
  // run and a stopped track, the reaction no picture and `aclose` no watchdog that could
  // still fire; a run that is gone was killed; a reaction under way has
  // killed the run it found before it waits for anything; and a session given up because
  // there is no video line has no run and a stopped track.
  lemma EndingsTakeItDown(gen: nat, run: seq<Action>)
    requires Feasible(Armed(gen), run)
    ensures var s := Run(Armed(gen), run);
      && (s.guard.at == Gone(true) ==> Down(s) && s.shown.trackStopped)
      && (s.closer.Returned? ==> s.pipe.run.None? && s.shown.trackStopped && Unleashed(s.guard))
      && (s.pipe.run.None? ==> s.asker.gen in s.pipe.killed)
      && (s.guard.at.Waiting? || s.guard.at.Closing? ==> Unplugged(s.pipe))
      && (s.asker.at == Over(false) && !s.shown.geometry && !Told(s) ==>
            s.pipe.run.None? && s.shown.trackStopped)
  {
    Through(Armed(gen), run);
  }
}
