// The microphone across reconnects: the service owns whether it is muted, each client has
// a mute of its own that comes up open, and between them stands the worker's queue. The
// supervisor realigns every client it brings up. The queue is the one
// `CrossingModel.TheWorkerIsAQueue` describes.
module Microphone {
  import opened Options

  // A `set_mic_muted` on its way: the client it was bound to when it was submitted.
  datatype Job = Job(client: nat, muted: bool)

  // One the worker has run; `heard` is false when its awaiter was cancelled.
  datatype Ran = Ran(job: Job, ok: bool, heard: bool)

  // Where the supervisor stands. Realigning, so many mutes are ahead of its own; holding,
  // its own was the one at this place of the history.
  datatype Phase = Unheld | Realigning(ahead: nat) | Holding(since: nat) | Dead

  datatype Desk = Desk(owned: bool, client: nat, phase: Phase)

  datatype Pipe = Pipe(
    done: seq<Ran>,               // run, and their awaiters not resumed yet
    queue: seq<Job>,
    running: bool,                // the first of the queue has begun
    heard: bool)                  // its awaiter is still there

  datatype State = State(
    desk: Desk,
    pipe: Pipe,
    mutes: seq<bool>,             // each client's own, by number
    told: seq<Ran>)               // history: those whose turn to resume has come

  datatype Action =
    | Mute(muted: bool)           // a page asks
    | Build                       // a fresh client, which everybody now speaks through
    | Connect                     // it registered: realign it
    | Lose                        // the binding is lost
    | Begin
    | Finish(ok: bool)
    | Resume
    | CancelQueued(i: nat)        // an await cancelled before its job begins drops the job
    | CancelBegun                 // and after, leaves it running with nobody to hear it
    | CancelDone(i: nat)

  const BOOT := State(Desk(true, 0, Unheld), Pipe([], [], false, true), [false], [])

  predicate Enabled(s: State, a: Action) {
    match a
    case Mute(_) => true
    case Build => s.desk.phase.Unheld?
    case Connect => s.desk.phase.Unheld?
    case Lose => s.desk.phase.Holding?
    case Begin => s.pipe.queue != [] && !s.pipe.running
    case Finish(_) => s.pipe.queue != [] && s.pipe.running
    case Resume => s.pipe.done != []
    case CancelQueued(i) => i < |s.pipe.queue| && (i > 0 || !s.pipe.running)
    case CancelBegun => s.pipe.queue != [] && s.pipe.running && s.pipe.heard
    case CancelDone(i) => i < |s.pipe.done| && s.pipe.done[i].heard
  }

  function Submitted(s: State, muted: bool): State {
    s.(pipe := s.pipe.(queue := s.pipe.queue + [Job(s.desk.client, muted)]))
  }

  // `set_mic_muted` carries on: the service owns what the client was told.
  function Heard(s: State): State
    requires s.pipe.done != []
  {
    var ran := s.pipe.done[0];
    var took := ran.ok && ran.heard;
    var phase :=
      match s.desk.phase
      case Realigning(ahead) =>
        if ahead > 0 then Realigning(ahead - 1) else if took then Holding(|s.told|) else Dead
      case phase => phase;
    State(Desk(if took then ran.job.muted else s.desk.owned, s.desk.client, phase),
          s.pipe.(done := s.pipe.done[1..]), s.mutes, s.told + [ran])
  }

  // How many jobs stand before this one of the queue.
  function Place(s: State, i: nat): nat { |s.pipe.done| + i }

  function Dropped(s: State, i: nat): State
    requires i < |s.pipe.queue|
  {
    var t := s.(pipe := s.pipe.(queue := s.pipe.queue[..i] + s.pipe.queue[i + 1..]));
    match s.desk.phase
    case Realigning(ahead) =>
      if Place(s, i) < ahead then t.(desk := s.desk.(phase := Realigning(ahead - 1)))
      else if Place(s, i) == ahead then t.(desk := s.desk.(phase := Dead))
      else t
    case _ => t
  }

  function Finished(s: State, ok: bool): State
    requires s.pipe.queue != []
  {
    var job := s.pipe.queue[0];
    s.(pipe := Pipe(s.pipe.done + [Ran(job, ok, s.pipe.heard)], s.pipe.queue[1..], false, true),
       mutes := if ok && job.client < |s.mutes| then s.mutes[job.client := job.muted] else s.mutes)
  }

  function Unheard(runs: seq<Ran>, i: nat): seq<Ran>
    requires i < |runs|
  {
    runs[i := runs[i].(heard := false)]
  }

  function Step(s: State, a: Action): State
    requires Enabled(s, a)
  {
    match a
    case Mute(muted) => Submitted(s, muted)
    case Build => s.(desk := s.desk.(client := |s.mutes|), mutes := s.mutes + [false])
    case Connect =>
      Submitted(s, s.desk.owned).(desk := s.desk.(phase := Realigning(Place(s, |s.pipe.queue|))))
    case Lose => s.(desk := s.desk.(phase := Unheld))
    case Begin => s.(pipe := s.pipe.(running := true))
    case Finish(ok) => Finished(s, ok)
    case Resume => Heard(s)
    case CancelQueued(i) => Dropped(s, i)
    case CancelBegun => s.(pipe := s.pipe.(heard := false))
    case CancelDone(i) => s.(pipe := s.pipe.(done := Unheard(s.pipe.done, i)))
  }

  predicate Feasible(s: State, run: seq<Action>)
    decreases |run|
  {
    run == [] || (Enabled(s, run[0]) && Feasible(Step(s, run[0]), run[1..]))
  }

  function Run(s: State, run: seq<Action>): State
    requires Feasible(s, run)
    decreases |run|
  {
    if run == [] then s else Run(Step(s, run[0]), run[1..])
  }

  // ---- what the mutes run so far come to ---------------------------------------

  // The last one that took on a client.
  function LastOn(runs: seq<Ran>, client: nat): Option<Ran> {
    if runs == [] then None
    else
      var last := runs[|runs| - 1];
      if last.ok && last.job.client == client then Some(last) else LastOn(runs[..|runs| - 1], client)
  }

  function OpenOr(last: Option<Ran>): bool { last.Some? && last.value.job.muted }

  // What the service owns after them: the last that took and that somebody heard of.
  function OwnedAfter(runs: seq<Ran>): bool {
    if runs == [] then true
    else
      var last := runs[|runs| - 1];
      if last.ok && last.heard then last.job.muted else OwnedAfter(runs[..|runs| - 1])
  }

  // The last one that took on a client and that somebody heard of.
  function LastHeardOn(runs: seq<Ran>, client: nat): Option<Ran> {
    if runs == [] then None
    else
      var last := runs[|runs| - 1];
      if last.ok && last.heard && last.job.client == client then Some(last)
      else LastHeardOn(runs[..|runs| - 1], client)
  }

  lemma OneMore(runs: seq<Ran>, ran: Ran, client: nat)
    ensures LastOn(runs + [ran], client)
         == if ran.ok && ran.job.client == client then Some(ran) else LastOn(runs, client)
    ensures OwnedAfter(runs + [ran]) == if ran.ok && ran.heard then ran.job.muted else OwnedAfter(runs)
  {
    assert (runs + [ran])[..|runs|] == runs;
  }

  lemma {:induction false} NoneOn(runs: seq<Ran>, client: nat)
    requires forall k | 0 <= k < |runs| :: runs[k].job.client != client
    ensures LastOn(runs, client) == None
  {
    if runs != [] { NoneOn(runs[..|runs| - 1], client); }
  }

  // Whether anybody heard makes no difference to the client.
  lemma {:induction false} UnheardTakes(runs: seq<Ran>, i: nat, client: nat)
    requires i < |runs|
    ensures OpenOr(LastOn(Unheard(runs, i), client)) == OpenOr(LastOn(runs, client))
  {
    var last := |runs| - 1;
    var before := runs[..last];
    if i < last {
      assert Unheard(runs, i)[..last] == Unheard(before, i);
      UnheardTakes(before, i, client);
    } else {
      assert Unheard(runs, i)[..last] == before;
    }
  }

  // After one that took and was heard, with nothing since but on its client: what the
  // service owns is what the last one heard on that client said, and the last one to take
  // is that one if it was heard.
  lemma {:induction false} SinceRealigned(runs: seq<Ran>, since: nat, client: nat)
    requires since < |runs| && runs[since].ok && runs[since].heard
    requires forall k | since <= k < |runs| :: runs[k].job.client == client
    ensures var last := LastOn(runs, client); var heard := LastHeardOn(runs, client);
      && last.Some? && heard.Some? && OwnedAfter(runs) == heard.value.job.muted
      && (last.value.heard ==> last == heard)
    decreases |runs|
  {
    if since < |runs| - 1 {
      SinceRealigned(runs[..|runs| - 1], since, client);
    }
  }

  // ---- what every step keeps ---------------------------------------------------

  function All(s: State): seq<Ran> { s.told + s.pipe.done }

  ghost predicate Tidy(s: State) {
    && s.desk.client == |s.mutes| - 1
    && (s.pipe.running ==> s.pipe.queue != []) && (!s.pipe.heard ==> s.pipe.running)
    && (forall k | 0 <= k < |s.pipe.queue| :: s.pipe.queue[k].client < |s.mutes|)
    && (forall k | 0 <= k < |All(s)| :: All(s)[k].job.client < |s.mutes|)
  }

  ghost predicate Told(s: State)
    requires Tidy(s)
  {
    && s.desk.owned == OwnedAfter(s.told)
    && s.mutes[s.desk.client] == OpenOr(LastOn(All(s), s.desk.client))
  }

  // From this place on, everything on its way is bound to the current client.
  ghost predicate Bound(s: State, place: nat) {
    && (forall k | place <= k < |s.pipe.done| :: s.pipe.done[k].job.client == s.desk.client)
    && (forall k | 0 <= k < |s.pipe.queue| && place <= Place(s, k) ::
          s.pipe.queue[k].client == s.desk.client)
  }

  ghost predicate Settled(s: State) {
    match s.desk.phase
    case Holding(since) =>
      && Bound(s, 0) && since < |s.told| && s.told[since].ok && s.told[since].heard
      && (forall k | since <= k < |s.told| :: s.told[k].job.client == s.desk.client)
    case Realigning(ahead) => Bound(s, ahead) && ahead < |s.pipe.done| + |s.pipe.queue|
    case _ => true
  }

  ghost predicate Inv(s: State) { Tidy(s) && Told(s) && Settled(s) }

  lemma FinishKeeps(s: State, ok: bool)
    requires Inv(s) && s.pipe.queue != []
    ensures Inv(Finished(s, ok))
  {
    var ran := Ran(s.pipe.queue[0], ok, s.pipe.heard);
    assert All(Finished(s, ok)) == All(s) + [ran];
    OneMore(All(s), ran, s.desk.client);
  }

  lemma ResumeKeeps(s: State)
    requires Inv(s) && s.pipe.done != []
    ensures Inv(Heard(s))
  {
    assert All(Heard(s)) == All(s);
    OneMore(s.told, s.pipe.done[0], s.desk.client);
  }

  // The queue without one of its jobs.
  lemma DroppedQueue(s: State, i: nat)
    requires i < |s.pipe.queue|
    ensures var t := Dropped(s, i);
      && t.pipe == s.pipe.(queue := t.pipe.queue) && |t.pipe.queue| == |s.pipe.queue| - 1
      && t.mutes == s.mutes && t.told == s.told && t.desk == s.desk.(phase := t.desk.phase)
      && forall k | 0 <= k < |t.pipe.queue| ::
           t.pipe.queue[k] == s.pipe.queue[if k < i then k else k + 1]
  {
  }

  lemma DropKeeps(s: State, i: nat)
    requires Inv(s) && Enabled(s, CancelQueued(i))
    ensures Inv(Dropped(s, i))
  {
    DroppedQueue(s, i);
  }

  lemma CancelKeeps(s: State, i: nat)
    requires Inv(s) && Enabled(s, CancelDone(i))
    ensures Inv(Step(s, CancelDone(i)))
  {
    assert All(Step(s, CancelDone(i))) == Unheard(All(s), |s.told| + i);
    UnheardTakes(All(s), |s.told| + i, s.desk.client);
  }

  // A fresh client, open as it comes: nothing was ever run on it.
  lemma BuildKeeps(s: State)
    requires Inv(s) && Enabled(s, Build)
    ensures Inv(Step(s, Build))
  {
    NoneOn(All(s), |s.mutes|);
  }

  lemma OthersKeep(s: State, a: Action)
    requires Inv(s) && Enabled(s, a)
    requires a.Mute? || a.Connect? || a.Lose? || a.Begin? || a.CancelBegun?
    ensures Inv(Step(s, a))
  {
    assert All(Step(s, a)) == All(s);
  }

  lemma StepKeeps(s: State, a: Action)
    requires Inv(s) && Enabled(s, a)
    ensures Inv(Step(s, a))
  {
    match a
    case Build => BuildKeeps(s);
    case Finish(ok) => FinishKeeps(s, ok);
    case Resume => ResumeKeeps(s);
    case CancelQueued(i) => DropKeeps(s, i);
    case CancelDone(i) => CancelKeeps(s, i);
    case _ => OthersKeep(s, a);
  }

  lemma {:induction false} RunKeeps(s: State, run: seq<Action>)
    requires Inv(s) && Feasible(s, run)
    ensures Inv(Run(s, run))
    decreases |run|
  {
    if run != [] {
      StepKeeps(s, run[0]);
      RunKeeps(Step(s, run[0]), run[1..]);
    }
  }

  // ---- aligned -----------------------------------------------------------------

  // The last mute that took on the client and the last that was heard said the same.
  predicate Agree(runs: seq<Ran>, client: nat) {
    var last := LastOn(runs, client);
    var heard := LastHeardOn(runs, client);
    last.Some? && heard.Some? && last.value.job.muted == heard.value.job.muted
  }

  lemma HeldAgrees(s: State)
    requires Inv(s) && s.desk.phase.Holding?
    ensures var last := LastOn(All(s), s.desk.client); var heard := LastHeardOn(All(s), s.desk.client);
      && last.Some? && heard.Some? && s.desk.client < |s.mutes|
      && s.mutes[s.desk.client] == last.value.job.muted
      && OwnedAfter(All(s)) == heard.value.job.muted
      && (last.value.heard ==> last == heard)
  {
    var since := s.desk.phase.since;
    assert All(s)[since] == s.told[since];
    SinceRealigned(All(s), since, s.desk.client);
  }

  // Whatever pages asked, whichever awaits were cancelled, and however often the client was
  // replaced: while the supervisor holds a binding, its client's microphone is what the
  // last mute that took on it said. With nothing run that is still to be heard of, that is
  // what the service owns exactly when the last mute heard on this client said the same; so
  // a heard mute aligns them at once, whatever was lost before it.
  lemma HeldClientsAreAligned(run: seq<Action>)
    requires Feasible(BOOT, run)
    ensures var s := Run(BOOT, run); var last := LastOn(All(s), s.desk.client);
      s.desk.phase.Holding? ==>
        && last.Some? && s.desk.client < |s.mutes|
        && s.mutes[s.desk.client] == last.value.job.muted
        && (s.mutes[s.desk.client] == OwnedAfter(All(s)) <==> Agree(All(s), s.desk.client))
        && (s.pipe.done == [] ==>
              && (s.mutes[s.desk.client] == s.desk.owned <==> Agree(s.told, s.desk.client))
              && (last.value.heard ==> s.mutes[s.desk.client] == s.desk.owned))
  {
    RunKeeps(BOOT, run);
    var s := Run(BOOT, run);
    if s.desk.phase.Holding? {
      HeldAgrees(s);
      if s.pipe.done == [] { assert All(s) == s.told; }
    }
  }

  // Nobody has stopped listening to a mute the worker had begun.
  ghost predicate Listened(s: State) {
    && s.pipe.heard
    && (forall k | 0 <= k < |s.pipe.done| :: s.pipe.done[k].heard)
    && (forall k | 0 <= k < |s.told| :: s.told[k].heard)
  }

  predicate Cuts(a: Action) { a.CancelBegun? || a.CancelDone? }

  lemma ListenedKept(s: State, a: Action)
    requires Listened(s) && Enabled(s, a) && !Cuts(a)
    ensures Listened(Step(s, a))
  {
    if a.CancelQueued? { DroppedQueue(s, a.i); }
  }

  lemma {:induction false} ListenedThrough(s: State, run: seq<Action>)
    requires Listened(s) && Feasible(s, run) && forall i | 0 <= i < |run| :: !Cuts(run[i])
    ensures Listened(Run(s, run))
    decreases |run|
  {
    if run != [] {
      ListenedKept(s, run[0]);
      ListenedThrough(Step(s, run[0]), run[1..]);
    }
  }

  lemma {:induction false} LastIsThere(runs: seq<Ran>, client: nat)
    ensures LastOn(runs, client).Some? ==> LastOn(runs, client).value in runs
  {
    if runs != [] { LastIsThere(runs[..|runs| - 1], client); }
  }

  // And where no await was cancelled on a mute already begun, drops from the queue, lost
  // bindings and fresh clients notwithstanding: a held client's microphone is what the
  // service owns.
  lemma AlignedUnlessCut(run: seq<Action>)
    requires Feasible(BOOT, run) && forall i | 0 <= i < |run| :: !Cuts(run[i])
    ensures var s := Run(BOOT, run);
      s.desk.phase.Holding? && s.pipe.done == [] ==>
        s.desk.client < |s.mutes| && s.mutes[s.desk.client] == s.desk.owned
  {
    HeldClientsAreAligned(run);
    ListenedThrough(BOOT, run);
    LastIsThere(All(Run(BOOT, run)), Run(BOOT, run).desk.client);
  }

  // ---- what a realign says -----------------------------------------------------

  // The job that stands this far from its turn to be heard of.
  function JobAt(s: State, place: nat): Job
    requires place < |s.pipe.done| + |s.pipe.queue|
  {
    if place < |s.pipe.done| then s.pipe.done[place].job else s.pipe.queue[place - |s.pipe.done|]
  }

  // A realign under way carries this, for the client that connected.
  ghost predicate Carries(s: State, client: nat, muted: bool) {
    s.desk.phase.Realigning? ==>
      && s.desk.client == client && s.desk.phase.ahead < |s.pipe.done| + |s.pipe.queue|
      && JobAt(s, s.desk.phase.ahead) == Job(client, muted)
  }

  lemma DropCarries(s: State, i: nat, client: nat, muted: bool)
    requires Inv(s) && Carries(s, client, muted) && s.desk.phase.Realigning? && Enabled(s, CancelQueued(i))
    ensures Carries(Dropped(s, i), client, muted)
  {
    DroppedQueue(s, i);
  }

  lemma FinishCarries(s: State, ok: bool, client: nat, muted: bool)
    requires Inv(s) && Carries(s, client, muted) && s.desk.phase.Realigning? && s.pipe.queue != []
    ensures Carries(Finished(s, ok), client, muted)
  {
  }

  lemma ResumeCarries(s: State, client: nat, muted: bool)
    requires Inv(s) && Carries(s, client, muted) && s.desk.phase.Realigning? && s.pipe.done != []
    ensures Carries(Heard(s), client, muted)
  {
  }

  lemma CarriesKept(s: State, a: Action, client: nat, muted: bool)
    requires Inv(s) && Carries(s, client, muted) && s.desk.phase.Realigning? && Enabled(s, a)
    ensures Carries(Step(s, a), client, muted)
  {
    match a
    case Finish(ok) => FinishCarries(s, ok, client, muted);
    case Resume => ResumeCarries(s, client, muted);
    case CancelQueued(i) => DropCarries(s, i, client, muted);
    case _ =>
  }

  // The mute of the realign under way is dropped before it began.
  predicate DropsRealign(s: State, a: Action) {
    a.CancelQueued? && s.desk.phase.Realigning? && Place(s, a.i) == s.desk.phase.ahead
  }

  // Or came back, and either raised or found nobody to hear of it.
  predicate FailsRealign(s: State, a: Action) {
    && a.Resume? && s.desk.phase == Realigning(0) && s.pipe.done != []
    && !(s.pipe.done[0].ok && s.pipe.done[0].heard)
  }

  // A binding is held from the realign that was heard to its loss; a realign that is dropped
  // or fails ends the loop; and a connect is all that begins one.
  lemma ThePhaseMovesExactlyWhen(s: State, a: Action)
    requires Inv(s) && Enabled(s, a)
    ensures var now := Step(s, a).desk.phase;
      match s.desk.phase
      case Unheld => now == if a.Connect? then Realigning(|s.pipe.done| + |s.pipe.queue|) else Unheld
      case Holding(since) => now == if a.Lose? then Unheld else s.desk.phase
      case Realigning(_) =>
        && (now.Dead? <==> DropsRealign(s, a) || FailsRealign(s, a))
        && (now.Holding? || now.Dead? || now.Realigning?)
      case Dead => now == Dead
  {
  }

  // The realign of this connect is still under way all along.
  predicate StillRealigning(s: State, run: seq<Action>)
    requires Feasible(s, run)
    decreases |run|
  {
    s.desk.phase.Realigning? && (run == [] || StillRealigning(Step(s, run[0]), run[1..]))
  }

  lemma {:induction false} CarriesThrough(s: State, run: seq<Action>, client: nat, muted: bool)
    requires Inv(s) && Carries(s, client, muted) && Feasible(s, run) && StillRealigning(s, run)
    ensures var t := Run(s, run);
      t.desk.phase.Realigning? && Inv(t) && Carries(t, client, muted)
    decreases |run|
  {
    if run != [] {
      CarriesKept(s, run[0], client, muted);
      StepKeeps(s, run[0]);
      CarriesThrough(Step(s, run[0]), run[1..], client, muted);
    }
  }

  lemma RealignHeard(t: State, client: nat, muted: bool)
    requires Inv(t) && Carries(t, client, muted) && t.desk.phase.Realigning? && Enabled(t, Resume)
    ensures var u := Step(t, Resume);
      && (u.desk.phase.Holding?
          <==> t.desk.phase == Realigning(0) && t.pipe.done[0].ok && t.pipe.done[0].heard)
      && (u.desk.phase.Holding? ==>
            t.pipe.done[0] == Ran(Job(client, muted), true, true) && u.desk.owned == muted)
      && (!u.desk.phase.Holding? ==> u.desk.phase == if t.desk.phase.ahead == 0 then Dead
                                                    else Realigning(t.desk.phase.ahead - 1))
  {
  }

  // A connect puts behind whatever is on its way one mute, on the client it connected, that
  // says what the service owned as it connected. Whatever is asked, run, cancelled or heard
  // in between: when the supervisor comes to hold the binding it is because that mute took
  // and was heard, and what the service then owns is what it owned as it connected. If that
  // mute raised, or nobody was left to hear of it, the loop is over.
  lemma ARealignKeepsWhatWasOwned(run: seq<Action>, mid: seq<Action>)
    requires Feasible(BOOT, run) && Enabled(Run(BOOT, run), Connect)
    requires Feasible(Step(Run(BOOT, run), Connect), mid)
    requires StillRealigning(Step(Run(BOOT, run), Connect), mid)
    ensures var s := Run(BOOT, run); var t := Run(Step(s, Connect), mid);
      && Step(s, Connect).pipe.queue == s.pipe.queue + [Job(s.desk.client, s.desk.owned)]
      && (Enabled(t, Resume) ==>
            (Step(t, Resume).desk.phase.Holding?
             <==> t.desk.phase == Realigning(0) && t.pipe.done[0].ok && t.pipe.done[0].heard)
            && (t.desk.phase == Realigning(0) && !Step(t, Resume).desk.phase.Holding? ==>
                  Step(t, Resume).desk.phase.Dead?))
      && (Enabled(t, Resume) && Step(t, Resume).desk.phase.Holding? ==>
            && t.pipe.done[0] == Ran(Job(s.desk.client, s.desk.owned), true, true)
            && Step(t, Resume).desk.owned == s.desk.owned)
  {
    RunKeeps(BOOT, run);
    var s := Run(BOOT, run);
    StepKeeps(s, Connect);
    CarriesThrough(Step(s, Connect), mid, s.desk.client, s.desk.owned);
    var t := Run(Step(s, Connect), mid);
    if Enabled(t, Resume) { RealignHeard(t, s.desk.client, s.desk.owned); }
  }

  lemma Then(s: State, a: Action, rest: seq<Action>)
    requires Enabled(s, a) && Feasible(Step(s, a), rest)
    ensures Feasible(s, [a] + rest) && Run(s, [a] + rest) == Run(Step(s, a), rest)
  {
    assert ([a] + rest)[1..] == rest;
  }

  // Held, aligned, and nothing on its way.
  const QUIET := State(Desk(true, 0, Holding(0)), Pipe([], [], false, true), [true],
                       [Ran(Job(0, true), true, true)])

  lemma QuietIsReached()
    ensures var run := [Connect] + ([Begin] + ([Finish(true)] + ([Resume] + [])));
      Feasible(BOOT, run) && Run(BOOT, run) == QUIET
  {
    var s1 := Step(BOOT, Connect);
    var s2 := Step(s1, Begin);
    var s3 := Step(s2, Finish(true));
    Then(s3, Resume, []);
    Then(s2, Finish(true), [Resume] + []);
    Then(s1, Begin, [Finish(true)] + ([Resume] + []));
    Then(BOOT, Connect, [Begin] + ([Finish(true)] + ([Resume] + [])));
  }

  // Held, with a client that hears what its owner believes closed.
  const PARTED := QUIET.(mutes := [false], told := QUIET.told + [Ran(Job(0, false), true, false)])

  // Such a run: a mute whose await is cancelled once the worker has begun it reaches the
  // client, and the service never hears of it.
  lemma ACancelledMuteParts()
    ensures var run := [Mute(false)] + ([Begin] + ([CancelBegun] + ([Finish(true)] + ([Resume] + []))));
      Feasible(QUIET, run) && Run(QUIET, run) == PARTED
  {
    var s1 := Step(QUIET, Mute(false));
    var s2 := Step(s1, Begin);
    var s3 := Step(s2, CancelBegun);
    var s4 := Step(s3, Finish(true));
    Then(s4, Resume, []);
    Then(s3, Finish(true), [Resume] + []);
    Then(s2, CancelBegun, [Finish(true)] + ([Resume] + []));
    Then(s1, Begin, [CancelBegun] + ([Finish(true)] + ([Resume] + [])));
    Then(QUIET, Mute(false), [Begin] + ([CancelBegun] + ([Finish(true)] + ([Resume] + []))));
  }

  // And the next mute that is heard joins them again, on the same client.
  lemma AHeardMuteJoins(muted: bool)
    ensures var run := [Mute(muted)] + ([Begin] + ([Finish(true)] + ([Resume] + [])));
      && Feasible(PARTED, run)
      && var s := Run(PARTED, run);
        s.desk == Desk(muted, 0, Holding(0)) && s.mutes == [muted] && s.pipe == QUIET.pipe
  {
    var s1 := Step(PARTED, Mute(muted));
    var s2 := Step(s1, Begin);
    var s3 := Step(s2, Finish(true));
    Then(s3, Resume, []);
    Then(s2, Finish(true), [Resume] + []);
    Then(s1, Begin, [Finish(true)] + ([Resume] + []));
    Then(PARTED, Mute(muted), [Begin] + ([Finish(true)] + ([Resume] + [])));
  }
}
