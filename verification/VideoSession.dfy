// One session's picture after `SessionVideo.arm` has returned, at loop-step granularity:
// the asking task (PictureWait), the watchdog's task and its reaction, the one `aclose`
// the session makes, and the SDK worker they all cross through, which runs its jobs one
// at a time in order and goes on running a job whose awaiter was cancelled. The worker is
// the queue `CrossingModel.TheWorkerIsAQueue` shows it to be, with what its jobs do to
// the tap.
module TapWorker {

  // What the worker has in hand. A run is named by the generation it was built in.
  datatype Job =
    | Open(id: nat, run: nat)     // `open_video_tap` on that run's pipe
    | Close(id: nat)              // `close_video_tap`
    | Other(id: nat)              // somebody else's SDK call

  // How a job ended: an open may find no video line, be refused for now, or raise
  // something nobody expects.
  datatype Verdict = Fine | NoVideo | Refused | Broken

  datatype Tap = Shut | On(run: nat)

  datatype Work = Work(
    jobs: seq<Job>,               // in order, the running one first
    busy: bool,                   // the first job is running
    done: map<nat, Verdict>,
    abandoned: set<nat>,          // jobs whose awaiter was cancelled
    next: nat,
    tap: Tap)

  const FRESH := Work([], false, map[], {}, 0, Shut)

  function Opened(w: Work, run: nat): Work {
    w.(jobs := w.jobs + [Open(w.next, run)], next := w.next + 1)
  }

  function Closed(w: Work): Work { w.(jobs := w.jobs + [Close(w.next)], next := w.next + 1) }

  function Finished(w: Work, verdict: Verdict): Work
    requires w.jobs != []
  {
    var job := w.jobs[0];
    w.(jobs := w.jobs[1..], busy := false, done := w.done[job.id := verdict],
       tap := if job.Close? then Shut
              else if job.Open? && verdict.Fine? then On(job.run) else w.tap)
  }

  ghost predicate Numbered(w: Work) {
    && (forall i | 0 <= i < |w.jobs| :: w.jobs[i].id < w.next && w.jobs[i].id !in w.done)
    && (forall i, j | 0 <= i < j < |w.jobs| :: w.jobs[i].id != w.jobs[j].id)
    && (forall id | id in w.done :: id < w.next)
  }

  // The tap is closed and nothing queued could open it.
  ghost predicate Quiet(w: Work) {
    w.tap.Shut? && forall i | 0 <= i < |w.jobs| :: !w.jobs[i].Open?
  }

  // This close is under way with no open behind it, or has run and left things quiet.
  ghost predicate Sealing(w: Work, id: nat) {
    && id < w.next && id !in w.abandoned
    && (id in w.done ==> Quiet(w))
    && (id !in w.done ==> Close(id) in w.jobs)
    && (forall i, j | 0 <= i < j < |w.jobs| && w.jobs[i] == Close(id) :: !w.jobs[j].Open?)
  }

  // One change of the worker's state: something submitted, taken, skipped or finished,
  // a job abandoned, or the tap dropped by the stack.
  datatype Change =
    | Same
    | Opens(run: nat)
    | Closes
    | Others
    | Takes
    | Skips
    | Finishes(verdict: Verdict)
    | Abandons(id: nat)
    | Releases

  predicate May(w: Work, c: Change) {
    match c
    case Takes => !w.busy && w.jobs != []
    case Skips => !w.busy && w.jobs != [] && w.jobs[0].id in w.abandoned
    case Finishes(verdict) => w.busy && w.jobs != [] && (w.jobs[0].Open? || verdict.Fine?)
    case _ => true
  }

  function After(w: Work, c: Change): Work
    requires May(w, c)
  {
    match c
    case Same => w
    case Opens(run) => Opened(w, run)
    case Closes => Closed(w)
    case Others => w.(jobs := w.jobs + [Other(w.next)], next := w.next + 1)
    case Takes => w.(busy := true)
    case Skips => w.(jobs := w.jobs[1..])
    case Finishes(verdict) => Finished(w, verdict)
    case Abandons(id) => w.(abandoned := w.abandoned + {id})
    case Releases => w.(tap := Shut)
  }

  lemma NumberedKept(w: Work, c: Change)
    requires Numbered(w) && May(w, c)
    ensures Numbered(After(w, c))
  {
  }

  // Nothing but a new open disturbs a quiet tap.
  lemma QuietKept(w: Work, c: Change)
    requires Quiet(w) && May(w, c) && !c.Opens?
    ensures Quiet(After(w, c))
  {
  }

  // Nothing but a new open, or giving the close up, stops a close from sealing.
  lemma SealingKept(w: Work, c: Change, id: nat)
    requires Numbered(w) && Sealing(w, id) && May(w, c) && !c.Opens? && c != Abandons(id)
    ensures Sealing(After(w, c), id)
  {
    var v := After(w, c);
    match c
    case Closes => Submitted(w, Close(w.next), id);
    case Others => Submitted(w, Other(w.next), id);
    case Skips => HeadLeaves(w, id);
    case Finishes(verdict) =>
      if w.jobs[0] == Close(id) {
        assert forall j | 0 < j < |w.jobs| :: !w.jobs[j].Open?;
      } else {
        HeadLeaves(w, id);
      }
    case _ =>
  }

  lemma Submitted(w: Work, job: Job, id: nat)
    requires Numbered(w) && Sealing(w, id) && !job.Open? && job.id == w.next
    ensures Sealing(w.(jobs := w.jobs + [job], next := w.next + 1), id)
  {
    var v := w.(jobs := w.jobs + [job], next := w.next + 1);
    if id !in w.done {
      var i :| 0 <= i < |w.jobs| && w.jobs[i] == Close(id);
      assert v.jobs[i] == Close(id);
    }
  }

  lemma HeadLeaves(w: Work, id: nat)
    requires Numbered(w) && Sealing(w, id) && w.jobs != [] && w.jobs[0] != Close(id)
    ensures id !in w.done ==> Close(id) in w.jobs[1..]
    ensures forall i, j | 0 <= i < j < |w.jobs[1..]| && w.jobs[1..][i] == Close(id) ::
      !w.jobs[1..][j].Open?
  {
    if id !in w.done {
      var i :| 0 <= i < |w.jobs| && w.jobs[i] == Close(id);
      assert w.jobs[1..][i - 1] == Close(id);
    }
  }

  // A close just submitted is the last job of all.
  lemma NewCloseSeals(w: Work)
    requires Numbered(w) && forall id | id in w.abandoned :: id < w.next
    ensures Sealing(Closed(w), w.next)
  {
    assert Closed(w).jobs[|w.jobs|] == Close(w.next);
  }
}

module VideoSession {
  import opened TapWorker

  import opened Options

  // Where `_keep_asking` is suspended.
  datatype Wait =
    | Sleeping
    | Opening(id: nat, run: nat)  // in `arm`, crossing
    | Raced(id: nat)              // in `arm`, closing what a moved generation left armed
    | LosingDog                   // in `_lose`, waiting for the watchdog's task
    | LosingRun                   // in `_lose`, waiting for the encoder to be reaped
    | Over(failed: bool)

  // Where the watchdog's task is suspended; past the first, in its reaction.
  datatype Dog =
    | Watching
    | Waiting                     // in `_stalled`, waiting for the asking to end
    | Closing(id: nat)            // in `_stalled`, closing the tap
    | Dropping                    // in `_lose`, waiting for the encoder to be reaped
    | Gone(stalled: bool)         // history: whether `_stalled` ran to its end

  // Where `aclose` is suspended.
  datatype Closer =
    | Idle
    | Hushing                     // waiting for the asking to end
    | Shutting(id: nat)           // closing the tap
    | Leashing                    // waiting for the watchdog's task
    | Reaping                     // waiting for the encoder to be reaped
    | Returned
    | Raised
    | CutShort                    // cancelled, and gone with the CancelledError

  datatype Pipeline = Pipeline(
    gen: nat,
    run: Option<nat>,
    killed: set<nat>)             // runs whose encoder was killed

  datatype Asker = Asker(
    at: Wait,
    cancelled: bool,              // the task was cancelled and has not run since
    task: bool,                   // `PictureWait._task` still names it
    waiting: bool,
    gen: nat)                     // the generation it asks for

  datatype Guard = Guard(
    at: Dog,
    cancelled: bool,
    named: bool)                  // the pipeline still names its watchdog

  datatype Shown = Shown(
    geometry: bool,
    trackStopped: bool,
    closed: bool,                 // the session's own flag
    voiceLost: bool)              // the bridge holds a stop reason

  datatype State = State(
    pipe: Pipeline, work: Work, asker: Asker, guard: Guard, closer: Closer, shown: Shown)

  datatype Action =
    | StepWait
    | StepDog
    | DogFires
    | StepCloser
    | Forget                      // the asking task's done-callback
    | CloseSession
    | CancelCloser                // the task running `aclose` is cancelled
    | VoiceStops
    | Worker(change: Change)

  // `SessionVideo.arm` has just returned.
  function Armed(gen: nat): State {
    State(Pipeline(gen, Some(gen), {}), FRESH, Asker(Sleeping, false, true, true, gen),
          Guard(Watching, false, true), Idle, Shown(false, false, false, false))
  }

  predicate Asking(w: Asker) { w.at.Sleeping? || w.at.Opening? || w.at.Raced? }

  predicate WaitReady(s: State) {
    match s.asker.at
    case Sleeping => true
    case Opening(id, _) => s.asker.cancelled || id in s.work.done
    case Raced(id) => s.asker.cancelled || id in s.work.done
    case LosingDog => s.guard.at.Gone?
    case LosingRun => true
    case Over(_) => false
  }

  predicate DogReady(s: State) {
    match s.guard.at
    case Watching => s.guard.cancelled
    case Waiting => s.asker.at.Over?
    case Closing(id) => s.guard.cancelled || id in s.work.done
    case Dropping => true
    case Gone(_) => false
  }

  predicate CloserReady(s: State) {
    match s.closer
    case Idle => s.shown.closed
    case Hushing => s.asker.at.Over?
    case Shutting(id) => id in s.work.done
    case Leashing => s.guard.at.Gone?
    case Reaping => true
    case _ => false
  }

  // Waiting inside `aclose`, for something a cancellation can reach.
  predicate Held(c: Closer) { c.Hushing? || c.Shutting? || c.Leashing? || c.Reaping? }

  predicate Enabled(s: State, a: Action) {
    match a
    case StepWait => WaitReady(s)
    case StepDog => DogReady(s)
    case DogFires => s.guard.at.Watching? && !s.guard.cancelled
    case StepCloser => CloserReady(s)
    case Forget => s.asker.at.Over? && s.asker.task
    case CloseSession => !s.shown.closed
    case CancelCloser => Held(s.closer)
    case VoiceStops => true
    // An open, a close or an abandonment is a task's doing, never the worker's own.
    case Worker(change) => !change.Opens? && !change.Closes? && !change.Abandons? && May(s.work, change)
  }

  // `PictureWait.stop` from outside the asking: lower the flag, cancel the task.
  function Stopped(w: Asker): Asker {
    w.(waiting := false, task := false, cancelled := w.cancelled || (w.task && !w.at.Over?))
  }

  function Unwaited(work: Work, w: Asker): Work {
    if w.task && (w.at.Opening? || w.at.Raced?) then After(work, Abandons(w.at.id)) else work
  }

  // `Watchdog.aclose` from outside its task.
  function Leashed(d: Guard): Guard { d.(named := false, cancelled := true) }

  function Unguarded(work: Work, d: Guard): Work {
    if d.at.Closing? then After(work, Abandons(d.at.id)) else work
  }

  // The part of `_stop_run` that moves the generation, for a run that is there.
  function Dropped(p: Pipeline): Pipeline
    requires p.run.Some?
  {
    Pipeline(p.gen + 1, None, p.killed + {p.run.value})
  }

  function Plugged(p: Pipeline): Pipeline {
    if p.run.Some? then p.(killed := p.killed + {p.run.value}) else p
  }

  // ---- the asking task ---------------------------------------------------------

  function Again(w: Asker): Asker { w.(at := if w.waiting then Sleeping else Over(false)) }

  function Ask(s: State): State {
    if !s.asker.waiting then s.(asker := s.asker.(at := Over(false)))
    else if s.asker.gen != s.pipe.gen || s.pipe.run.None? || s.pipe.run.value in s.pipe.killed then s
    else s.(work := Opened(s.work, s.pipe.run.value),
            asker := s.asker.(at := Opening(s.work.next, s.pipe.run.value)))
  }

  // The rest of `_lose` once the watchdog is out of the way.
  function LoseRun(s: State): State {
    if s.pipe.run.Some? then s.(pipe := Dropped(s.pipe), asker := s.asker.(at := LosingRun))
    else s.(asker := s.asker.(at := Over(false)), shown := s.shown.(trackStopped := true))
  }

  // `_lose`, entered from inside the asking.
  function Lose(s: State): State {
    var t := s.(asker := s.asker.(waiting := false, task := false), shown := s.shown.(geometry := false));
    if s.guard.named && !s.guard.at.Gone?
    then t.(guard := Leashed(s.guard), work := Unguarded(s.work, s.guard), asker := t.asker.(at := LosingDog))
    else LoseRun(t.(guard := s.guard.(named := false)))
  }

  function Answered(s: State, verdict: Verdict): State {
    match verdict
    case NoVideo => Lose(s)
    case Refused => s.(asker := Again(s.asker))
    case Broken => s.(asker := s.asker.(at := Over(true)))
    case Fine =>
      if s.asker.gen != s.pipe.gen
      then s.(work := Closed(s.work), asker := s.asker.(at := Raced(s.work.next)))
      else s.(asker := s.asker.(at := Over(false), waiting := false), shown := s.shown.(geometry := true))
  }

  function RunWait(s: State): State
    requires WaitReady(s)
  {
    if s.asker.cancelled && Asking(s.asker) then s.(asker := s.asker.(at := Over(false), cancelled := false))
    else match s.asker.at
      case Sleeping => Ask(s)
      case Opening(id, _) => Answered(s, s.work.done[id])
      case Raced(_) => s.(asker := Again(s.asker))
      case LosingDog => LoseRun(s)
      case LosingRun => s.(asker := s.asker.(at := Over(false)), shown := s.shown.(trackStopped := true))
      case Over(_) => s
  }

  // ---- the watchdog's task -----------------------------------------------------

  function DogCloses(s: State): State {
    s.(work := Closed(s.work), guard := s.guard.(at := Closing(s.work.next)))
  }

  // The plug is pulled and the asking told to stop, in one step.
  function Fire(s: State): State {
    var t := s.(pipe := Plugged(s.pipe), asker := Stopped(s.asker), work := Unwaited(s.work, s.asker));
    if !s.asker.task || s.asker.at == Over(false) then DogCloses(t)
    else t.(guard := s.guard.(at := if s.asker.at.Over? then Gone(false) else Waiting))
  }

  function DogLoses(s: State): State {
    var t := s.(asker := s.asker.(waiting := false, task := false), shown := s.shown.(geometry := false));
    if s.pipe.run.Some?
    then t.(pipe := Dropped(s.pipe), guard := s.guard.(at := Dropping, named := false))
    else t.(guard := s.guard.(at := Gone(true), named := false), shown := t.shown.(trackStopped := true))
  }

  // A cancellation reaching the task while it waits for the asking is swallowed there.
  function RunDog(s: State): State
    requires DogReady(s)
  {
    match s.guard.at
    case Watching => s.(guard := s.guard.(at := Gone(false)))
    case Waiting =>
      if s.asker.at == Over(true) then s.(guard := s.guard.(at := Gone(false)))
      else DogCloses(s.(guard := s.guard.(cancelled := false)))
    case Closing(_) => if s.guard.cancelled then s.(guard := s.guard.(at := Gone(false))) else DogLoses(s)
    case Dropping =>
      if s.guard.cancelled then s.(guard := s.guard.(at := Gone(false)))
      else s.(guard := s.guard.(at := Gone(true)), shown := s.shown.(trackStopped := true))
    case Gone(_) => s
  }

  // ---- aclose ------------------------------------------------------------------

  function CloserShuts(s: State): State {
    s.(work := Closed(s.work), closer := Shutting(s.work.next))
  }

  function CloserReaps(s: State): State {
    if s.pipe.run.Some? then s.(pipe := Dropped(s.pipe), closer := Reaping)
    else s.(closer := Returned, shown := s.shown.(trackStopped := true))
  }

  function RunCloser(s: State): State
    requires CloserReady(s)
  {
    match s.closer
    case Idle =>
      var t := s.(asker := Stopped(s.asker), work := Unwaited(s.work, s.asker));
      if !s.asker.task || s.asker.at == Over(false) then CloserShuts(t)
      else t.(closer := if s.asker.at.Over? then Raised else Hushing)
    case Hushing => if s.asker.at == Over(true) then s.(closer := Raised) else CloserShuts(s)
    case Shutting(_) =>
      if s.guard.named && !s.guard.at.Gone?
      then s.(guard := Leashed(s.guard), work := Unguarded(s.work, s.guard), closer := Leashing)
      else CloserReaps(s.(guard := s.guard.(named := false)))
    case Leashing => CloserReaps(s)
    case Reaping => s.(closer := Returned, shown := s.shown.(trackStopped := true))
    case _ => s
  }

  // Awaiting another task, a cancellation goes to that task and is swallowed with it; one
  // awaiting the worker or the encoder leaves, and a close it had queued is abandoned.
  function CutCloser(s: State): State {
    match s.closer
    case Shutting(id) => s.(work := After(s.work, Abandons(id)), closer := CutShort)
    case Leashing =>
      if s.guard.at.Gone? then s
      else s.(guard := Leashed(s.guard), work := Unguarded(s.work, s.guard))
    case Reaping => s.(closer := CutShort)
    case _ => s
  }

  function Step(s: State, a: Action): State
    requires Enabled(s, a)
  {
    match a
    case StepWait => RunWait(s)
    case StepDog => RunDog(s)
    case DogFires => Fire(s)
    case StepCloser => RunCloser(s)
    case Forget => s.(asker := s.asker.(task := false))
    case CloseSession => s.(shown := s.shown.(closed := true))
    case CancelCloser => CutCloser(s)
    case VoiceStops => s.(shown := s.shown.(voiceLost := true))
    case Worker(change) => s.(work := After(s.work, change))
  }

  predicate Feasible(s: State, run: seq<Action>)
    decreases |run|
  {
    run == [] || (Enabled(s, run[0]) && Feasible(Step(s, run[0]), run[1..]))
  }

  function Run(s: State, run: seq<Action>): State
    requires Feasible(s, run)
    decreases |run|
  {
    if run == [] then s else Run(Step(s, run[0]), run[1..])
  }

  // ---- what every interleaving keeps -------------------------------------------

  // The asking may still submit an open.
  predicate CanOpen(w: Asker) { Asking(w) && !w.cancelled }

  predicate Told(s: State) {
    || !(s.guard.at.Watching? || s.guard.at == Gone(false))
    || !s.closer.Idle?
  }

  // Nobody asks after having been told to stop.
  ghost predicate Hushed(s: State) {
    && (CanOpen(s.asker) ==> s.asker.waiting && s.asker.task)
    && (s.asker.cancelled ==> Asking(s.asker) && !s.asker.waiting && !s.asker.task)
    && (s.asker.at.LosingDog? || s.asker.at.LosingRun? ==> !s.asker.waiting && !s.asker.task)
    && (s.asker.at == Over(false) ==> !s.asker.waiting)
    && (Told(s) ==> !s.asker.waiting)
  }

  // An open that may still be believed was made on the current run, alive.
  ghost predicate Current(s: State) {
    s.asker.at.Opening? && !s.asker.cancelled && s.asker.gen == s.pipe.gen ==>
      s.pipe.run == Some(s.asker.at.run) && s.asker.at.run !in s.pipe.killed
  }

  lemma HushedKept(s: State, a: Action)
    requires Hushed(s) && Enabled(s, a)
    ensures Hushed(Step(s, a))
  {
  }

  lemma CurrentKept(s: State, a: Action)
    requires Hushed(s) && Current(s) && Enabled(s, a)
    ensures Current(Step(s, a))
  {
  }

  // ---- the seal ----------------------------------------------------------------

  ghost predicate Distinct(s: State) {
    && (s.asker.at.Opening? || s.asker.at.Raced? ==> s.asker.at.id < s.work.next)
    && (s.guard.at.Closing? ==> s.guard.at.id < s.work.next)
    && (s.closer.Shutting? ==> s.closer.id < s.work.next)
    && (forall id | id in s.work.abandoned :: id < s.work.next)
    && (s.closer.Shutting? && s.guard.at.Closing? ==> s.closer.id != s.guard.at.id)
    && (s.closer.Shutting? && (s.asker.at.Opening? || s.asker.at.Raced?) ==> s.closer.id != s.asker.at.id)
    && (s.guard.at.Closing? && (s.asker.at.Opening? || s.asker.at.Raced?) ==> s.guard.at.id != s.asker.at.id)
  }

  lemma DistinctWait(s: State)
    requires Distinct(s) && WaitReady(s)
    ensures Distinct(RunWait(s))
  {
  }

  lemma DistinctDog(s: State)
    requires Distinct(s)
    ensures DogReady(s) ==> Distinct(RunDog(s))
    ensures s.guard.at.Watching? ==> Distinct(Fire(s))
  {
  }

  lemma DistinctCloser(s: State)
    requires Distinct(s) && CloserReady(s)
    ensures Distinct(RunCloser(s))
  {
  }

  lemma DistinctCut(s: State)
    requires Distinct(s)
    ensures Distinct(CutCloser(s))
  {
  }

  lemma DistinctKept(s: State, a: Action)
    requires Distinct(s) && Enabled(s, a)
    ensures Distinct(Step(s, a))
  {
    match a
    case StepWait => DistinctWait(s);
    case StepDog => DistinctDog(s);
    case DogFires => DistinctDog(s);
    case StepCloser => DistinctCloser(s);
    case CancelCloser => DistinctCut(s);
    case Worker(change) =>
    case _ =>
  }

  // Whoever has a close in flight, or is past it, has the tap closed for good.
  ghost predicate Sealed(work: Work, c: Closer, d: Guard) {
    && Numbered(work)
    && (c.Shutting? ==> Sealing(work, c.id))
    && (d.at.Closing? && !d.cancelled ==> Sealing(work, d.at.id))
    && (c.Leashing? || c.Reaping? || c.Returned? ==> Quiet(work))
    && (d.at.Dropping? || d.at == Gone(true) ==> Quiet(work))
  }

  // The worker moves on under both of them.
  lemma SealedUnder(work: Work, change: Change, c: Closer, d: Guard)
    requires Sealed(work, c, d) && May(work, change) && !change.Opens?
    requires change.Abandons? ==>
               (c.Shutting? ==> c.id != change.id) && (d.at.Closing? && !d.cancelled ==> d.at.id != change.id)
    ensures Sealed(After(work, change), c, d)
  {
    NumberedKept(work, change);
    if c.Shutting? { SealingKept(work, change, c.id); }
    if d.at.Closing? && !d.cancelled { SealingKept(work, change, d.at.id); }
    if Quiet(work) { QuietKept(work, change); }
  }

  ghost predicate Inv(s: State) {
    Hushed(s) && Current(s) && Distinct(s) && Sealed(s.work, s.closer, s.guard)
  }

  lemma SealedWait(s: State)
    requires Inv(s) && WaitReady(s)
    ensures var t := RunWait(s); Sealed(t.work, t.closer, t.guard)
  {
    var t := RunWait(s);
    if CanOpen(s.asker) {
      assert !Told(s);
      if t.asker.at.Opening? && s.asker.at.Sleeping? {
        NumberedKept(s.work, Opens(t.asker.at.run));
      } else if t.asker.at.Raced? && s.asker.at.Opening? {
        SealedUnder(s.work, Closes, s.closer, s.guard);
      }
    }
  }

  lemma SealedFire(s: State)
    requires Inv(s) && Enabled(s, DogFires)
    ensures var t := Fire(s); Sealed(t.work, t.closer, t.guard)
  {
    var told := s.(asker := Stopped(s.asker), work := Unwaited(s.work, s.asker));
    AbandonKept(s);
    DogSeals(told);
  }

  lemma AbandonKept(s: State)
    requires Sealed(s.work, s.closer, s.guard) && Distinct(s)
    ensures Sealed(Unwaited(s.work, s.asker), s.closer, s.guard)
    ensures forall id | id in Unwaited(s.work, s.asker).abandoned :: id < s.work.next
  {
    if s.asker.task && (s.asker.at.Opening? || s.asker.at.Raced?) {
      SealedUnder(s.work, Abandons(s.asker.at.id), s.closer, s.guard);
    }
  }

  lemma DogSeals(s: State)
    requires Sealed(s.work, s.closer, s.guard)
    requires forall id | id in s.work.abandoned :: id < s.work.next
    ensures var t := DogCloses(s); Sealed(t.work, t.closer, t.guard)
  {
    var still := if s.guard.at.Closing? then s.guard.(at := Watching) else s.guard;
    SealedUnder(s.work, Closes, s.closer, still);
    NewCloseSeals(s.work);
  }

  lemma CloserSeals(s: State)
    requires Sealed(s.work, s.closer, s.guard)
    requires forall id | id in s.work.abandoned :: id < s.work.next
    ensures var t := CloserShuts(s); Sealed(t.work, t.closer, t.guard)
  {
    SealedUnder(s.work, Closes, Idle, s.guard);
    NewCloseSeals(s.work);
  }

  lemma SealedDog(s: State)
    requires Inv(s) && DogReady(s)
    ensures var t := RunDog(s); Sealed(t.work, t.closer, t.guard)
  {
    if s.guard.at.Waiting? && s.asker.at != Over(true) {
      DogSeals(s.(guard := s.guard.(cancelled := false)));
    }
  }

  lemma LeashKept(s: State, c: Closer)
    requires Sealed(s.work, s.closer, s.guard) && Distinct(s) && s.closer.Shutting? && s.closer.id in s.work.done
    requires c.Leashing?
    ensures Sealed(Unguarded(s.work, s.guard), c, Leashed(s.guard))
  {
    if s.guard.at.Closing? {
      SealedUnder(s.work, Abandons(s.guard.at.id), c, Leashed(s.guard));
    }
  }

  lemma SealedCloser(s: State)
    requires Inv(s) && CloserReady(s)
    ensures var t := RunCloser(s); Sealed(t.work, t.closer, t.guard)
  {
    match s.closer
    case Idle =>
      var told := s.(asker := Stopped(s.asker), work := Unwaited(s.work, s.asker));
      AbandonKept(s);
      CloserSeals(told);
    case Hushing =>
      CloserSeals(s);
    case Shutting(_) =>
      if s.guard.named && !s.guard.at.Gone? { LeashKept(s, Leashing); }
    case _ =>
  }

  lemma SealedCut(s: State)
    requires Inv(s)
    ensures var t := CutCloser(s); Sealed(t.work, t.closer, t.guard)
  {
    if s.closer.Shutting? {
      SealedUnder(s.work, Abandons(s.closer.id), CutShort, s.guard);
    } else if s.closer.Leashing? && s.guard.at.Closing? {
      SealedUnder(s.work, Abandons(s.guard.at.id), s.closer, Leashed(s.guard));
    }
  }

  lemma SealedKept(s: State, a: Action)
    requires Inv(s) && Enabled(s, a)
    ensures var t := Step(s, a); Sealed(t.work, t.closer, t.guard)
  {
    match a
    case StepWait => SealedWait(s);
    case StepDog => SealedDog(s);
    case DogFires => SealedFire(s);
    case StepCloser => SealedCloser(s);
    case CancelCloser => SealedCut(s);
    case Worker(change) => SealedUnder(s.work, change, s.closer, s.guard);
    case _ =>
  }

  lemma StepKeeps(s: State, a: Action)
    requires Inv(s) && Enabled(s, a)
    ensures Inv(Step(s, a))
  {
    HushedKept(s, a);
    CurrentKept(s, a);
    DistinctKept(s, a);
    SealedKept(s, a);
  }

  lemma {:induction false} RunKeeps(s: State, run: seq<Action>)
    requires Inv(s) && Feasible(s, run)
    ensures Inv(Run(s, run))
    decreases |run|
  {
    if run != [] {
      StepKeeps(s, run[0]);
      RunKeeps(Step(s, run[0]), run[1..]);
    }
  }

  lemma Reachable(gen: nat, run: seq<Action>)
    requires Feasible(Armed(gen), run)
    ensures Inv(Run(Armed(gen), run))
  {
    RunKeeps(Armed(gen), run);
  }

  // ---- the picture that arrives -------------------------------------------------

  // A picture is only ever reported on the run the tap was opened on, still the
  // pipeline's own and still alive.
  lemma ArrivalIsLive(gen: nat, run: seq<Action>)
    requires Feasible(Armed(gen), run)
    ensures var s := Run(Armed(gen), run);
      WaitReady(s) && !s.shown.geometry && RunWait(s).shown.geometry ==>
        && s.asker.at.Opening? && RunWait(s).pipe.run == Some(s.asker.at.run)
        && s.asker.at.run !in RunWait(s).pipe.killed
        && s.work.done[s.asker.at.id].Fine?
  {
    Reachable(gen, run);
  }

  // ---- the state a session reports ---------------------------------------------

  datatype SessionState = WAITING | OPEN | DEGRADED | CLOSED

  function Reported(s: State): SessionState {
    if s.shown.closed then CLOSED
    else if s.shown.voiceLost then DEGRADED
    else if s.asker.waiting then WAITING
    else if !s.shown.geometry then DEGRADED
    else OPEN
  }

  function Rank(state: SessionState): nat {
    match state
    case WAITING => 0
    case OPEN => 1
    case DEGRADED => 2
    case CLOSED => 3
  }

  // A picture can be shown only once the asking is over.
  ghost predicate Shows(s: State) { s.shown.geometry ==> !s.asker.waiting }

  lemma ForwardStep(s: State, a: Action)
    requires Hushed(s) && Shows(s) && Enabled(s, a)
    ensures Rank(Reported(Step(s, a))) >= Rank(Reported(s)) && Shows(Step(s, a))
  {
  }

  lemma {:induction false} Forward(s: State, run: seq<Action>)
    requires Hushed(s) && Shows(s) && Feasible(s, run)
    ensures Rank(Reported(Run(s, run))) >= Rank(Reported(s))
    ensures Hushed(Run(s, run)) && Shows(Run(s, run))
    decreases |run|
  {
    if run != [] {
      HushedKept(s, run[0]);
      ForwardStep(s, run[0]);
      Forward(Step(s, run[0]), run[1..]);
    }
  }

  // Waiting, open, degraded, closed: in no run does a session go back.
  lemma StateOnlyMovesForward(gen: nat, run: seq<Action>, later: seq<Action>)
    requires Feasible(Armed(gen), run) && Feasible(Run(Armed(gen), run), later)
    ensures Rank(Reported(Run(Run(Armed(gen), run), later)))
         >= Rank(Reported(Run(Armed(gen), run)))
  {
    Forward(Armed(gen), run);
    Forward(Run(Armed(gen), run), later);
  }

  lemma PictureStep(s: State, a: Action)
    requires Enabled(s, a)
    ensures s.asker.at.Over? ==> Step(s, a).asker.at.Over?
    ensures s.asker.at.Over? && Step(s, a).shown.geometry ==> s.shown.geometry
    ensures (s.shown.geometry ==> s.asker.at.Over?) && Step(s, a).shown.geometry ==>
      Step(s, a).asker.at.Over?
  {
  }

  lemma {:induction false} PictureLaws(s: State, run: seq<Action>)
    requires (s.shown.geometry ==> s.asker.at.Over?) && Feasible(s, run)
    ensures var t := Run(s, run);
      && (t.shown.geometry ==> t.asker.at.Over?)
      && (s.asker.at.Over? ==> t.asker.at.Over? && (t.shown.geometry ==> s.shown.geometry))
    decreases |run|
  {
    if run != [] {
      PictureStep(s, run[0]);
      PictureLaws(Step(s, run[0]), run[1..]);
    }
  }

  // A picture comes once: shown and then given up, it is never shown again, whatever the
  // voice does and whatever state the session reports.
  lemma ALostPictureNeverReturns(gen: nat, run: seq<Action>, lost: seq<Action>, later: seq<Action>)
    requires Feasible(Armed(gen), run) && Feasible(Run(Armed(gen), run), lost)
    requires Feasible(Run(Run(Armed(gen), run), lost), later)
    requires Run(Armed(gen), run).shown.geometry
    requires !Run(Run(Armed(gen), run), lost).shown.geometry
    ensures !Run(Run(Run(Armed(gen), run), lost), later).shown.geometry
  {
    PictureLaws(Armed(gen), run);
    PictureLaws(Run(Armed(gen), run), lost);
    PictureLaws(Run(Run(Armed(gen), run), lost), later);
  }

  // ---- aclose comes back -------------------------------------------------------

  // Nobody waits for somebody who is waiting for them.
  ghost predicate Unknotted(s: State) {
    && (s.work.busy ==> s.work.jobs != [])
    && (s.guard.at.Waiting? ==> s.asker.at == Over(false) || (Asking(s.asker) && s.asker.cancelled))
    && (s.asker.at.LosingDog? && !s.guard.at.Gone? ==> s.guard.cancelled && !s.guard.at.Waiting?)
    && (s.closer.Hushing? ==> s.asker.at == Over(false) || (Asking(s.asker) && s.asker.cancelled))
    && (s.closer.Leashing? && s.guard.at.Watching? ==> s.guard.cancelled)
  }

  lemma UnknottedKept(s: State, a: Action)
    requires Hushed(s) && Unknotted(s) && Enabled(s, a)
    ensures Unknotted(Step(s, a))
  {
  }

  lemma {:induction false} RunUnknotted(s: State, run: seq<Action>)
    requires Hushed(s) && Unknotted(s) && Feasible(s, run)
    ensures Unknotted(Run(s, run))
    decreases |run|
  {
    if run != [] {
      HushedKept(s, run[0]);
      UnknottedKept(s, run[0]);
      RunUnknotted(Step(s, run[0]), run[1..]);
    }
  }

  // The steps the three tasks and the worker owe, as against what the world may add.
  predicate Owed(a: Action) {
    match a
    case StepWait => true
    case StepDog => true
    case DogFires => true
    case StepCloser => true
    case Worker(change) => change.Takes? || change.Skips? || change.Finishes?
    case _ => false
  }

  function WorkLeft(work: Work): nat { 2 * |work.jobs| + if work.busy then 0 else 1 }

  function WaitLeft(w: Asker): nat {
    match w.at case LosingDog => 3 case LosingRun => 2 case Over(_) => 0 case _ => 1
  }

  function DogLeft(d: Guard): nat {
    match d.at
    case Watching => 8 case Waiting => 7 case Closing(_) => 4 case Dropping => 2 case Gone(_) => 0
  }

  function CloserLeft(c: Closer): nat {
    match c
    case Idle => 9 case Hushing => 8 case Shutting(_) => 5 case Leashing => 4
    case Reaping => 2 case _ => 0
  }

  function Left(s: State): nat {
    WorkLeft(s.work) + WaitLeft(s.asker) + DogLeft(s.guard) + CloserLeft(s.closer)
  }

  lemma WorkRunsOut(s: State, a: Action)
    requires Unknotted(s) && a.Worker? && Enabled(s, a) && Owed(a)
    ensures Left(Step(s, a)) < Left(s)
  {
  }

  lemma WaitRunsOut(s: State)
    requires Hushed(s) && !s.asker.waiting && WaitReady(s)
    ensures Left(RunWait(s)) < Left(s)
  {
  }

  lemma DogRunsOut(s: State)
    requires Enabled(s, StepDog) || Enabled(s, DogFires)
    ensures Enabled(s, StepDog) ==> Left(RunDog(s)) < Left(s)
    ensures Enabled(s, DogFires) ==> Left(Fire(s)) < Left(s)
  {
  }

  lemma CloserRunsOut(s: State)
    requires CloserReady(s)
    ensures Left(RunCloser(s)) < Left(s)
  {
  }

  // What the world may add: a cancellation adds nothing to what is owed, and a call of
  // somebody else on the worker two steps of the worker's.
  lemma WorldAdds(s: State, a: Action)
    requires Enabled(s, a) && !Owed(a)
    ensures Left(Step(s, a)) <= Left(s) + if Elsewhere(a) then 2 else 0
  {
  }

  predicate Elsewhere(a: Action) { a.Worker? && a.change.Others? }

  function OwedIn(run: seq<Action>): nat {
    if run == [] then 0 else OwedIn(run[1..]) + if Owed(run[0]) then 1 else 0
  }

  // Calls of somebody else that came to the worker.
  function ElsewhereIn(run: seq<Action>): nat {
    if run == [] then 0 else ElsewhereIn(run[1..]) + if Elsewhere(run[0]) then 1 else 0
  }

  lemma OwedStepRunsOut(s: State, a: Action)
    requires Hushed(s) && Unknotted(s) && !s.asker.waiting && Enabled(s, a) && Owed(a)
    ensures Left(Step(s, a)) < Left(s)
  {
    match a
    case StepWait => WaitRunsOut(s);
    case StepDog => DogRunsOut(s);
    case DogFires => DogRunsOut(s);
    case StepCloser => CloserRunsOut(s);
    case Worker(_) => WorkRunsOut(s, a);
  }

  lemma OneStepRunsOut(s: State, a: Action)
    requires Hushed(s) && Unknotted(s) && !s.asker.waiting && Enabled(s, a)
    ensures Left(Step(s, a)) + (if Owed(a) then 1 else 0)
         <= Left(s) + if Elsewhere(a) then 2 else 0
  {
    if Owed(a) { OwedStepRunsOut(s, a); } else { WorldAdds(s, a); }
  }

  lemma NoAskingAgain(s: State, a: Action)
    requires Hushed(s) && !s.asker.waiting && Enabled(s, a)
    ensures !Step(s, a).asker.waiting
  {
  }

  // Once the asking was told to stop, every owed step uses up some of what is left,
  // whatever happens between them.
  lemma {:induction false} OwedStepsRunOut(s: State, run: seq<Action>)
    requires Hushed(s) && Unknotted(s) && !s.asker.waiting && Feasible(s, run)
    ensures OwedIn(run) + Left(Run(s, run)) <= Left(s) + 2 * ElsewhereIn(run)
    decreases |run|
  {
    if run != [] {
      HushedKept(s, run[0]);
      UnknottedKept(s, run[0]);
      OneStepRunsOut(s, run[0]);
      NoAskingAgain(s, run[0]);
      OwedStepsRunOut(Step(s, run[0]), run[1..]);
    }
  }

  // It has returned, raised, or gone with its cancellation.
  predicate Back(c: Closer) { c.Returned? || LeftEarly(c) }

  predicate LeftEarly(c: Closer) { c.Raised? || c.CutShort? }

  // Past `_stalled`'s first step and not at its end.
  predicate Reacting(d: Dog) { d.Waiting? || d.Closing? || d.Dropping? }

  // While the reaction has not come to an end, somebody can move.
  lemma ReactionCanMove(s: State)
    requires Inv(s) && Unknotted(s) && Reacting(s.guard.at)
    ensures exists a :: Owed(a) && Enabled(s, a)
  {
    if DogReady(s) {
      assert Owed(StepDog) && Enabled(s, StepDog);
    } else if s.guard.at.Waiting? {
      assert Owed(StepWait) && Enabled(s, StepWait);
    } else {
      WorkerCanMove(s);
    }
  }

  // And while `aclose` has not come back.
  lemma SomebodyCanMove(s: State)
    requires Inv(s) && Unknotted(s) && s.shown.closed && !Back(s.closer)
    ensures exists a :: Owed(a) && Enabled(s, a)
  {
    if CloserReady(s) {
      assert Owed(StepCloser) && Enabled(s, StepCloser);
    } else if s.closer.Hushing? {
      assert Owed(StepWait) && Enabled(s, StepWait);
    } else if s.closer.Shutting? {
      WorkerCanMove(s);
    } else if Reacting(s.guard.at) {
      ReactionCanMove(s);
    } else {
      assert Owed(StepDog) && Enabled(s, StepDog);
    }
  }

  lemma WorkerCanMove(s: State)
    requires s.work.jobs != []
    ensures exists a :: Owed(a) && Enabled(s, a)
  {
    var change := if s.work.busy then Finishes(Fine) else Takes;
    assert Owed(Worker(change)) && Enabled(s, Worker(change));
  }

  // So `aclose` comes back: from the moment it begins, the three tasks and the worker
  // between them can take only so many steps, however often it is cancelled meanwhile and
  // with two more for every call that others bring to the worker, and they do not run out
  // of steps before it has returned, raised or gone.
  lemma AcloseComesBack(gen: nat, run: seq<Action>, later: seq<Action>)
    requires Feasible(Armed(gen), run)
    requires var s := Run(Armed(gen), run);
      !s.closer.Idle? && s.shown.closed && Feasible(s, later)
    ensures var s := Run(Armed(gen), run); var t := Run(s, later);
      && OwedIn(later) <= Left(s) + 2 * ElsewhereIn(later)
      && ((forall a | Owed(a) :: !Enabled(t, a)) ==> Back(t.closer))
  {
    var s := Run(Armed(gen), run);
    Reachable(gen, run);
    RunUnknotted(Armed(gen), run);
    OwedStepsRunOut(s, later);
    RunKeeps(s, later);
    RunUnknotted(s, later);
    StaysClosed(s, later);
    var t := Run(s, later);
    if !Back(t.closer) {
      SomebodyCanMove(t);
    }
  }

  // The stall reaction comes to its end in the same way.
  lemma ReactionComesBack(gen: nat, run: seq<Action>, later: seq<Action>)
    requires Feasible(Armed(gen), run)
    requires var s := Run(Armed(gen), run); Reacting(s.guard.at) && Feasible(s, later)
    ensures var s := Run(Armed(gen), run); var t := Run(s, later);
      && OwedIn(later) <= Left(s) + 2 * ElsewhereIn(later)
      && ((forall a | Owed(a) :: !Enabled(t, a)) ==> t.guard.at.Gone?)
  {
    var s := Run(Armed(gen), run);
    Reachable(gen, run);
    RunUnknotted(Armed(gen), run);
    OwedStepsRunOut(s, later);
    RunKeeps(s, later);
    RunUnknotted(s, later);
    StaysReacting(s, later);
    if !Run(s, later).guard.at.Gone? {
      ReactionCanMove(Run(s, later));
    }
  }

  lemma {:induction false} StaysReacting(s: State, run: seq<Action>)
    requires Feasible(s, run) && (Reacting(s.guard.at) || s.guard.at.Gone?)
    ensures Reacting(Run(s, run).guard.at) || Run(s, run).guard.at.Gone?
    decreases |run|
  {
    if run != [] {
      StaysReacting(Step(s, run[0]), run[1..]);
    }
  }

  lemma {:induction false} StaysClosed(s: State, run: seq<Action>)
    requires Feasible(s, run) && s.shown.closed
    ensures Run(s, run).shown.closed
    decreases |run|
  {
    if run != [] {
      assert Step(s, run[0]).shown.closed;
      StaysClosed(Step(s, run[0]), run[1..]);
    }
  }

  lemma Then(s: State, a: Action, rest: seq<Action>)
    requires Enabled(s, a) && Feasible(Step(s, a), rest)
    ensures Feasible(s, [a] + rest) && Run(s, [a] + rest) == Run(Step(s, a), rest)
  {
    assert ([a] + rest)[1..] == rest;
  }
}
