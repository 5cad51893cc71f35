// Hang-ups the grace reaper makes, and the INVITEs of ours in flight.
module Reaping {
  import opened CallEntries
  import opened GatewayModel
  import GatewayLaws

  // A monitor: placed by us, streaming, and with no browser leg; never one the panel
  // rang on.
  predicate Lawful(h: Submitted) {
    && h.entry.Some? && h.entry.value.state.Streaming? && h.entry.value.direction.OUTGOING?
    && !h.bridged && !h.rang
  }

  ghost predicate Spares(hangups: seq<Submitted>) {
    forall i | 0 <= i < |hangups| :: hangups[i].reaped ==> Lawful(hangups[i])
  }

  lemma {:induction false} ProceedSpares(s: State, rest: seq<CallId>)
    requires Spares(s.past.hangups)
    ensures Spares(Proceed(s, rest).past.hangups)
    decreases |rest|
  {
    if rest != [] {
      ProceedSpares(s, rest[1..]);
    }
  }

  lemma GraceSpares(s: State, call: CallId)
    requires Spares(s.past.hangups) && Sided(s.book) && Orphaned(s, call)
    ensures Spares(Hang(s, call, End, true).past.hangups)
  {
  }

  lemma ResumedSpares(s: State, task: Task, outcome: Outcome)
    requires Spares(s.past.hangups) && Sided(s.book)
    ensures Spares(Resumed(s, task, outcome).past.hangups)
  {
    match task
    case HangingUp(call, next) =>
      var t := PublishState(Noted(s, Dropped(call)).(book := Forgotten(s.book, call)));
      if next.Place? { ProceedSpares(t, next.rest); }
    case Grace(call) => if Orphaned(s, call) { GraceSpares(s, call); }
    case _ =>
  }

  lemma HangSpares(s: State, call: CallId, next: Next)
    requires Spares(s.past.hangups)
    ensures Spares(Hang(s, call, next, false).past.hangups)
  {
  }

  lemma FinishSpares(s: State, i: nat)
    requires Spares(s.past.hangups) && i < |s.media.sessions|
    ensures Spares(Finish(s, i).past.hangups)
  {
  }

  // The steps a hang-up can be submitted or waited for in.
  predicate Submitting(a: Action) { a.PlaceCall? || a.Hangup? || a.TornDown? || a.Resume? }

  // Nothing was submitted, and nothing waits to be.
  predicate Idle(s: State, t: State) {
    t.past.hangups == s.past.hangups && t.past.asked == s.past.asked
  }

  lemma CallbackIdles(s: State, handle: CallHandle, state: CallState)
    ensures Idle(s, CallStateArrived(s, handle, state))
  {
    var (book, news) := Recorded(s.book, handle, state, Guess(s), false);
    if news {
      var t := Noted(s, Reported(handle.id, state.Ended?)).(book := book);
      var event := CallEvent(handle.id, state, book.calls[handle.id].direction);
      PublishIdles(t, event);
      EndIdles(Publish(t, event), handle.id, Forgotten(book, handle.id));
    }
  }

  lemma PublishIdles(s: State, event: Event)
    ensures Idle(s, Publish(s, event))
  {
  }

  lemma EndIdles(s: State, id: CallId, book: Book)
    ensures Idle(s, PublishState(CallEnded(s, id).(book := book)))
  {
  }

  lemma OfferIdles(s: State, a: Action)
    requires a.Offer? || a.CloseLeg? || a.Open?
    ensures Idle(s, Step(s, a))
  {
  }

  lemma OthersSubmitNothing(s: State, a: Action)
    requires Enabled(s, a) && !Submitting(a)
    ensures Idle(s, Step(s, a))
  {
    match a
    case Reports(handle, state) => CallbackIdles(s, handle, state);
    case Offer(_) => OfferIdles(s, a);
    case CloseLeg(_) => OfferIdles(s, a);
    case Open(_) => OfferIdles(s, a);
    case _ =>
  }

  lemma SparesKept(s: State, a: Action)
    requires Spares(s.past.hangups) && Sided(s.book) && Enabled(s, a)
    ensures Spares(Step(s, a).past.hangups)
  {
    if Submitting(a) {
      match a
      case PlaceCall => ProceedSpares(s, StreamingIds(s.book));
      case Hangup(call) => HangSpares(s, call, End);
      case TornDown(id) => FinishSpares(s, ById(s.media.sessions, id));
      case Resume(task, outcome) =>
        ResumedSpares(s.(tasks := s.tasks - multiset{task}), task, outcome);
    } else {
      OthersSubmitNothing(s, a);
    }
  }

  lemma {:induction false} SparesThrough(s: State, run: seq<Action>)
    requires GatewayLaws.True(s.book, s.past.reports) && Spares(s.past.hangups) && Feasible(s, run)
    ensures Spares(Run(s, run).past.hangups)
    decreases |run|
  {
    if run != [] {
      GatewayLaws.TrueKept(s, run[0]);
      SparesKept(s, run[0]);
      SparesThrough(Step(s, run[0]), run[1..]);
    }
  }

  // However many reap tasks overlap and whatever happened while they slept: each hang-up
  // one of them submits hits a dialog that at that instant is ours, streams, has no leg
  // in the book and was never rung by the panel.
  lemma OnlyOrphanedMonitorsAreReaped(factory: bool, run: seq<Action>, i: nat)
    requires Feasible(Start(factory), run)
    ensures var hangups := Run(Start(factory), run).past.hangups;
      i < |hangups| && hangups[i].reaped ==> Lawful(hangups[i])
  {
    SparesThrough(Start(factory), run);
  }

  // ---- the INVITEs of ours in flight -------------------------------------------

  ghost function Invites(tasks: multiset<Task>): nat {
    tasks[Inviting] + tasks[OnDemand(DOOR)] + tasks[OnDemand(GATE)]
  }

  ghost predicate Counted(s: State) { s.own.inviting == Invites(s.tasks) }

  lemma {:induction false} ProceedCounted(s: State, rest: seq<CallId>)
    requires Counted(s)
    ensures Counted(Proceed(s, rest))
    decreases |rest|
  {
    if rest != [] {
      ProceedCounted(s, rest[1..]);
    }
  }

  lemma UninvitedCounted(s: State, task: Task, outcome: Outcome)
    requires s.own.inviting == Invites(s.tasks) + 1 && (task.Inviting? || task.OnDemand?)
    ensures Counted(Resumed(s, task, outcome))
  {
  }

  lemma HungUpCounted(s: State, call: CallId, next: Next)
    requires Counted(s)
    ensures Counted(HungUp(s, call, next))
  {
    var t := PublishState(Noted(s, Dropped(call)).(book := Forgotten(s.book, call)));
    if next.Place? { ProceedCounted(t, next.rest); }
  }

  lemma OthersCounted(s: State, task: Task, outcome: Outcome)
    requires Counted(s) && !task.Inviting? && !task.OnDemand? && !task.HangingUp? && !task.Grace?
    ensures Counted(Resumed(s, task, outcome))
  {
    assert Resumed(s, task, outcome).tasks == s.tasks;
  }

  lemma ResumedCounted(s: State, task: Task, outcome: Outcome)
    requires s.own.inviting == Invites(s.tasks) + Invites(multiset{task})
    ensures Counted(Resumed(s, task, outcome))
  {
    match task
    case Inviting => UninvitedCounted(s, task, outcome);
    case OnDemand(actuator) =>
      assert actuator == DOOR || actuator == GATE;
      UninvitedCounted(s, task, outcome);
    case HangingUp(call, next) => if outcome.Returned? { HungUpCounted(s, call, next); }
    case Grace(call) => HangCounted(s, call, End, true);
    case _ => OthersCounted(s, task, outcome);
  }

  lemma CallbackCounted(s: State, handle: CallHandle, state: CallState)
    requires Counted(s)
    ensures Counted(CallStateArrived(s, handle, state))
  {
  }

  lemma HangCounted(s: State, call: CallId, next: Next, reaped: bool)
    requires Counted(s)
    ensures Counted(Hang(s, call, next, reaped)) && Counted(Offered(s, call))
  {
  }

  lemma CommandCounted(s: State, a: Action)
    requires Counted(s) && (a.Answer? || a.SetMic? || a.Realign? || a.Open?)
    ensures Counted(Step(s, a))
  {
    if a.Open? { assert a.actuator == DOOR || a.actuator == GATE; }
  }

  lemma CountedKept(s: State, a: Action)
    requires Counted(s) && Enabled(s, a)
    ensures Counted(Step(s, a))
  {
    match a
    case Reports(handle, state) => CallbackCounted(s, handle, state);
    case PlaceCall => ProceedCounted(s, StreamingIds(s.book));
    case Hangup(call) => HangCounted(s, call, End, false);
    case Offer(named) =>
      if Picked(s, named).Ok? { HangCounted(s, Picked(s, named).value, End, false); }
    case TornDown(id) => FinishCounted(s, ById(s.media.sessions, id));
    case Resume(task, outcome) =>
      var t := s.(tasks := s.tasks - multiset{task});
      assert s.tasks == t.tasks + multiset{task};
      ResumedCounted(t, task, outcome);
    case Answer(_) => CommandCounted(s, a);
    case SetMic(_) => CommandCounted(s, a);
    case Realign => CommandCounted(s, a);
    case Open(_) => CommandCounted(s, a);
    case _ =>
  }

  lemma FinishCounted(s: State, i: nat)
    requires Counted(s) && i < |s.media.sessions|
    ensures Counted(Finish(s, i))
  {
  }

  lemma {:induction false} CountedThrough(s: State, run: seq<Action>)
    requires Counted(s) && Feasible(s, run)
    ensures Counted(Run(s, run))
    decreases |run|
  {
    if run != [] {
      CountedKept(s, run[0]);
      CountedThrough(Step(s, run[0]), run[1..]);
    }
  }

  // However they end, returned, raised or cancelled: a dialog first seen is guessed to
  // be ours exactly while an INVITE of ours is in flight.
  lemma GuessedOursExactlyWhileInviting(factory: bool, run: seq<Action>)
    requires Feasible(Start(factory), run)
    ensures var s := Run(Start(factory), run);
      Guess(s).OUTGOING? <==> exists task :: task in s.tasks && (task.Inviting? || task.OnDemand?)
  {
    CountedThrough(Start(factory), run);
    var s := Run(Start(factory), run);
    if s.own.inviting != 0 {
      var task := if s.tasks[Inviting] > 0 then Inviting
                  else if s.tasks[OnDemand(DOOR)] > 0 then OnDemand(DOOR) else OnDemand(GATE);
      assert task in s.tasks;
    }
    forall task | task in s.tasks && (task.Inviting? || task.OnDemand?) ensures Invites(s.tasks) > 0 {
      if task.OnDemand? { assert task.actuator == DOOR || task.actuator == GATE; }
    }
  }
}

// The last state published, and what a subscriber ends on.
module LastView {
  import opened CallEntries
  import opened GatewayModel
  import GatewayLaws

  // What a page drew from the log shows of the dialogs and the microphone. Before the
  // first event it shows the state the gateway starts in.
  predicate Shown(log: seq<Event>, b: Book, micMuted: bool) {
    if log == [] then Views(b) == [] && micMuted
    else log[|log| - 1].StateEvent? && log[|log| - 1].view.calls == Views(b)
         && log[|log| - 1].view.micMuted == micMuted
  }

  predicate UpToDate(s: State) { Shown(s.log, s.book, s.own.micMuted) }

  // A report of the state already known, that turns the dialog to the other side.
  predicate Turns(s: State, a: Action) {
    && a.Reports? && a.handle.id in s.book.calls
    && s.book.calls[a.handle.id].state == a.state
    && s.book.calls[a.handle.id].direction != Side(s.book, a.handle.id, Guess(s))
  }

  // The step published last of all, or published nothing and changed nothing shown.
  ghost predicate Settled(s: State, t: State) {
    if t.log == s.log then Views(t.book) == Views(s.book) && t.own.micMuted == s.own.micMuted
    else UpToDate(t)
  }

  lemma {:induction false} SettledProceed(s: State, rest: seq<CallId>)
    ensures Settled(s, Proceed(s, rest))
  {
    GatewayLaws.ProceedLeaves(s, rest);
  }

  lemma SameViews(b: Book, c: Book)
    requires b.order == c.order
    requires forall id | id in b.calls && id in c.calls ::
      b.calls[id].state == c.calls[id].state && b.calls[id].direction == c.calls[id].direction
    ensures Views(b) == Views(c)
  {
    forall i | 0 <= i < |b.order| ensures ViewOf(b, i) == ViewOf(c, i) {
      assert b.order[i] in b.calls && c.order[i] in c.calls;
    }
  }

  lemma RepeatedViews(b: Book, handle: CallHandle, guess: Direction)
    requires handle.id in b.calls && b.calls[handle.id].direction == Side(b, handle.id, guess)
    ensures Views(Recorded(b, handle, b.calls[handle.id].state, guess, false).0) == Views(b)
  {
    SameViews(b, Recorded(b, handle, b.calls[handle.id].state, guess, false).0);
  }

  lemma SettledReport(s: State, handle: CallHandle, state: CallState)
    requires !Turns(s, Reports(handle, state))
    ensures Settled(s, CallStateArrived(s, handle, state))
  {
    if handle.id in s.book.calls && s.book.calls[handle.id].state == state {
      RepeatedViews(s.book, handle, Guess(s));
    }
  }

  lemma SettledHungUp(s: State, call: CallId, next: Next)
    ensures UpToDate(HungUp(s, call, next)) && |HungUp(s, call, next).log| > |s.log|
  {
    var t := PublishState(Noted(s, Dropped(call)).(book := Forgotten(s.book, call)));
    if next.Place? { GatewayLaws.ProceedLeaves(t, next.rest); }
  }

  lemma SettledSharpened(s: State, handle: CallHandle, direction: Direction)
    ensures UpToDate(Sharpened(s, handle, direction))
    ensures |Sharpened(s, handle, direction).log| > |s.log|
  {
  }

  lemma SettledOpened(s: State, actuator: ActuatorName, outcome: Outcome)
    ensures Settled(s, Opened(s, actuator, outcome))
  {
  }

  lemma SettledResumed(s: State, task: Task, outcome: Outcome)
    ensures Settled(s, Resumed(s, task, outcome))
  {
    match task
    case Inviting =>
      if outcome.Returned? { SettledSharpened(Uninvited(s), outcome.handle, OUTGOING); }
    case OnDemand(actuator) => SettledOpened(Uninvited(s), actuator, outcome);
    case During(actuator) => SettledOpened(s, actuator, outcome);
    case Answering(handle) => SettledSharpened(s, handle, INCOMING);
    case HangingUp(call, next) => if outcome.Returned? { SettledHungUp(s, call, next); }
    case _ =>
  }

  lemma SettledFinish(s: State, i: nat)
    requires i < |s.media.sessions|
    ensures UpToDate(Finish(s, i))
  {
  }

  lemma SettledCommand(s: State, a: Action)
    requires a.Hangup? || a.Offer? || a.Open? || a.CloseLeg?
    ensures Settled(s, Step(s, a))
  {
  }

  lemma StepSettles(s: State, a: Action)
    requires Enabled(s, a) && !Turns(s, a)
    ensures Settled(s, Step(s, a))
  {
    match a
    case Reports(handle, state) => SettledReport(s, handle, state);
    case PlaceCall => SettledProceed(s, StreamingIds(s.book));
    case TornDown(id) => SettledFinish(s, ById(s.media.sessions, id));
    case Resume(task, outcome) => SettledResumed(s.(tasks := s.tasks - multiset{task}), task, outcome);
    case Hangup(_) => SettledCommand(s, a);
    case Offer(_) => SettledCommand(s, a);
    case Open(_) => SettledCommand(s, a);
    case CloseLeg(_) => SettledCommand(s, a);
    case _ =>
  }

  lemma TurningIsSilent(s: State, a: Action)
    requires Turns(s, a)
    ensures Step(s, a).log == s.log && Views(Step(s, a).book) != Views(s.book)
  {
    var id, t := a.handle.id, Step(s, a);
    var i :| 0 <= i < |s.book.order| && s.book.order[i] == id;
    assert Views(s.book)[i].direction == s.book.calls[id].direction;
    assert Views(t.book)[i].direction == t.book.calls[id].direction;
  }

  // The dialogs and the microphone last published are the ones the gateway holds, and a
  // step leaves them behind in exactly one case: the transport repeats a state the book
  // already has for a dialog, and the guess of the moment turns it to the other side.
  // That is stored and not published.
  lemma StaysUpToDateExactlyWhen(s: State, a: Action)
    requires UpToDate(s) && Enabled(s, a)
    ensures UpToDate(Step(s, a)) <==> !Turns(s, a)
  {
    if Turns(s, a) { TurningIsSilent(s, a); } else { StepSettles(s, a); }
  }

  predicate NeverTurns(s: State, run: seq<Action>)
    requires Feasible(s, run)
    decreases |run|
  {
    run == [] || (!Turns(s, run[0]) && NeverTurns(Step(s, run[0]), run[1..]))
  }

  lemma {:induction false} UpToDateThrough(s: State, run: seq<Action>)
    requires UpToDate(s) && Feasible(s, run) && NeverTurns(s, run)
    ensures UpToDate(Run(s, run))
    decreases |run|
  {
    if run != [] {
      StaysUpToDateExactlyWhen(s, run[0]);
      UpToDateThrough(Step(s, run[0]), run[1..]);
    }
  }

  lemma Then(s: State, a: Action, rest: seq<Action>)
    requires Enabled(s, a) && Feasible(Step(s, a), rest)
    ensures Feasible(s, [a] + rest) && Run(s, [a] + rest) == Run(Step(s, a), rest)
  {
    assert ([a] + rest)[1..] == rest;
  }

  const REPEATED := Reports(CallHandle(1, 0), Early(0))

  lemma FirstReport()
    ensures var s := Step(Start(true), REPEATED);
      && s.book == Entries([1], map[1 := Tracked(CallHandle(1, 0), Early(0), INCOMING)], {})
      && s.own == Start(true).own && StreamingIds(s.book) == []
  {
    var (book, news) := Recorded(NO_CALLS, CallHandle(1, 0), Early(0), INCOMING, false);
    assert book.order == [1] && news;
    StreamingIsTheBook(book);
  }

  // One such run: a door is opened on demand while an inbound dialog is being set up, and
  // the transport repeats that dialog's state.
  lemma ADialogCanTurnUnseen()
    ensures Feasible(Start(true), [REPEATED, Open(DOOR)])
    ensures var s := Run(Start(true), [REPEATED, Open(DOOR)]);
      UpToDate(s) && !UpToDate(Step(s, REPEATED))
  {
    FirstReport();
    var s1 := Step(Start(true), REPEATED);
    var s2 := Step(s1, Open(DOOR));
    Then(s1, Open(DOOR), []);
    Then(Start(true), REPEATED, [Open(DOOR)]);
    assert [REPEATED] + ([Open(DOOR)] + []) == [REPEATED, Open(DOOR)];
    StaysUpToDateExactlyWhen(Start(true), REPEATED);
    StaysUpToDateExactlyWhen(s1, Open(DOOR));
    StaysUpToDateExactlyWhen(s2, REPEATED);
  }
}

// One browser leg per dialog: kept by every step but one.
module OneLeg {
  import opened Options
  import opened CallEntries
  import opened GatewayModel
  import LastView
  import Reaping

  ghost predicate Single(sessions: seq<Session>) {
    forall i, j | 0 <= i < j < |sessions| :: sessions[i].call != sessions[j].call
  }

  // An offer on a dialog whose leg is already being torn down.
  predicate Overlaps(s: State, a: Action) {
    && a.Offer? && Picked(s, a.named).Ok?
    && var i := ForCall(s.media.sessions, Picked(s, a.named).value);
       i < |s.media.sessions| && s.media.sessions[i].closed
  }

  lemma {:induction false} ProceedSingle(s: State, rest: seq<CallId>)
    requires Single(s.media.sessions)
    ensures Single(Proceed(s, rest).media.sessions)
    decreases |rest|
  {
    if rest != [] {
      ProceedSingle(s, rest[1..]);
    }
  }

  lemma HangSingle(s: State, call: CallId, next: Next, reaped: bool)
    requires Single(s.media.sessions)
    ensures Single(Hang(s, call, next, reaped).media.sessions)
  {
  }

  lemma CloseSingle(s: State, id: nat)
    requires Single(s.media.sessions)
    ensures Single(CloseById(s, id).media.sessions)
  {
  }

  lemma OfferedSingle(s: State, call: CallId)
    requires Single(s.media.sessions)
    ensures var i, legs := ForCall(s.media.sessions, call), s.media.sessions;
      Single(Offered(s, call).media.sessions) <==> !(i < |legs| && legs[i].closed)
  {
    var i, legs := ForCall(s.media.sessions, call), s.media.sessions;
    if i < |legs| && legs[i].closed {
      var now := Offered(s, call).media.sessions;
      assert now[i].call == call && now[|legs|].call == call;
    }
  }

  lemma LessOne(sessions: seq<Session>, i: nat)
    requires Single(sessions) && i < |sessions|
    ensures var rest := sessions[..i] + sessions[i + 1..];
      Single(rest) && forall k | 0 <= k < |rest| :: rest[k].call != sessions[i].call
  {
  }

  lemma OneMore(sessions: seq<Session>, x: Session)
    requires Single(sessions) && forall k | 0 <= k < |sessions| :: sessions[k].call != x.call
    ensures Single(sessions + [x])
  {
  }

  lemma FinishSingle(s: State, i: nat)
    requires Single(s.media.sessions) && i < |s.media.sessions|
    ensures Single(Finish(s, i).media.sessions)
  {
    var x, rest := s.media.sessions[i], s.media.sessions[..i] + s.media.sessions[i + 1..];
    LessOne(s.media.sessions, i);
    OneMore(rest, Session(s.media.made + 1, x.call, false, WAITING, Nothing));
  }

  lemma ResumedSingle(s: State, task: Task, outcome: Outcome)
    requires Single(s.media.sessions)
    ensures Single(Resumed(s, task, outcome).media.sessions)
  {
    match task
    case HangingUp(call, next) =>
      var t := PublishState(Noted(s, Dropped(call)).(book := Forgotten(s.book, call)));
      if next.Place? { ProceedSingle(t, next.rest); }
    case Grace(call) => HangSingle(s, call, End, true);
    case Offering(id, _) => CloseSingle(s, id);
    case Ending(id) => CloseSingle(s, id);
    case _ =>
  }

  // One leg per dialog is kept by every step except an offer on a dialog whose leg is
  // already closing: the second `aclose` returns at once, so nothing is waited for.
  lemma OneLegPerCallExactlyWhen(s: State, a: Action)
    requires Single(s.media.sessions) && Enabled(s, a)
    ensures Single(Step(s, a).media.sessions) <==> !Overlaps(s, a)
  {
    match a
    case PlaceCall => ProceedSingle(s, StreamingIds(s.book));
    case Hangup(call) => HangSingle(s, call, End, false);
    case Offer(named) =>
      if Picked(s, named).Ok? { OfferedSingle(s, Picked(s, named).value); }
    case CloseLeg(id) => CloseSingle(s, id);
    case TornDown(id) => FinishSingle(s, ById(s.media.sessions, id));
    case Resume(task, outcome) =>
      ResumedSingle(s.(tasks := s.tasks - multiset{task}), task, outcome);
    case Reports(handle, state) => assert Step(s, a).media == s.media;
    case Rings(_) => assert Step(s, a).media == s.media;
    case _ =>
  }

  // ---- the leg goes before the dialog ------------------------------------------

  // A hang-up found a leg in the book exactly when one was closing as it was asked for.
  ghost predicate LegsFirst(past: Past) {
    && (forall i | 0 <= i < |past.hangups| :: past.hangups[i].bridged <==> past.hangups[i].closing)
    && (forall id | id in past.asked :: !past.asked[id])
  }

  lemma HangLegsFirst(s: State, call: CallId, next: Next, reaped: bool)
    requires Single(s.media.sessions) && LegsFirst(s.past)
    ensures LegsFirst(Hang(s, call, next, reaped).past)
  {
    var i, legs := ForCall(s.media.sessions, call), s.media.sessions;
    assert LegClosing(legs, call) <==> i < |legs| && legs[i].closed by {
      if LegClosing(legs, call) {
        var k :| 0 <= k < |legs| && legs[k].call == call && legs[k].closed;
        assert k == i;
      }
    }
  }

  lemma {:induction false} ProceedLegsFirst(s: State, rest: seq<CallId>)
    requires Single(s.media.sessions) && LegsFirst(s.past)
    ensures LegsFirst(Proceed(s, rest).past)
    decreases |rest|
  {
    if rest != [] {
      HangLegsFirst(s, rest[0], Place(rest[1..]), false);
      ProceedLegsFirst(s, rest[1..]);
    }
  }

  lemma FinishLegsFirst(s: State, i: nat)
    requires Single(s.media.sessions) && LegsFirst(s.past) && i < |s.media.sessions|
    ensures LegsFirst(Finish(s, i).past)
  {
    LessOne(s.media.sessions, i);
  }

  lemma ResumedLegsFirst(s: State, task: Task, outcome: Outcome)
    requires Single(s.media.sessions) && LegsFirst(s.past)
    ensures LegsFirst(Resumed(s, task, outcome).past)
  {
    match task
    case HangingUp(call, next) =>
      var t := PublishState(Noted(s, Dropped(call)).(book := Forgotten(s.book, call)));
      if next.Place? { ProceedLegsFirst(t, next.rest); }
    case Grace(call) => HangLegsFirst(s, call, End, true);
    case _ =>
  }

  lemma LegsFirstKept(s: State, a: Action)
    requires Single(s.media.sessions) && LegsFirst(s.past) && Enabled(s, a)
    ensures LegsFirst(Step(s, a).past)
  {
    if Reaping.Submitting(a) {
      match a
      case PlaceCall => ProceedLegsFirst(s, StreamingIds(s.book));
      case Hangup(call) => HangLegsFirst(s, call, End, false);
      case TornDown(id) => FinishLegsFirst(s, ById(s.media.sessions, id));
      case Resume(task, outcome) =>
        ResumedLegsFirst(s.(tasks := s.tasks - multiset{task}), task, outcome);
    } else {
      Reaping.OthersSubmitNothing(s, a);
    }
  }

  predicate NeverOverlaps(s: State, run: seq<Action>)
    requires Feasible(s, run)
    decreases |run|
  {
    run == [] || (!Overlaps(s, run[0]) && NeverOverlaps(Step(s, run[0]), run[1..]))
  }

  lemma {:induction false} Through(s: State, run: seq<Action>)
    requires Single(s.media.sessions) && LegsFirst(s.past)
    requires Feasible(s, run) && NeverOverlaps(s, run)
    ensures var t := Run(s, run); Single(t.media.sessions) && LegsFirst(t.past)
    decreases |run|
  {
    if run != [] {
      OneLegPerCallExactlyWhen(s, run[0]);
      LegsFirstKept(s, run[0]);
      Through(Step(s, run[0]), run[1..]);
    }
  }

  // As long as no offer overlaps a closing leg there is one leg per dialog; and a hang-up,
  // whoever asked for it, is submitted with the dialog's leg gone from the book, its taps
  // released, exactly when no leg on the dialog was already closing as it was asked for.
  lemma TheLegGoesFirst(factory: bool, run: seq<Action>, i: nat)
    requires Feasible(Start(factory), run) && NeverOverlaps(Start(factory), run)
    ensures var s := Run(Start(factory), run);
      && Single(s.media.sessions)
      && (i < |s.past.hangups| ==> (!s.past.hangups[i].bridged <==> !s.past.hangups[i].closing))
  {
    Through(Start(factory), run);
  }

  // A leg already closing is not waited for, whoever is closing it: the hang-up goes out
  // over it at once.
  lemma AClosingLegIsNotWaitedFor(s: State, call: CallId, flow: SessionState)
    requires s.media.sessions == [Session(1, call, false, flow, Nothing)] && call in s.book.calls
    ensures var run := [CloseLeg(1)] + ([Hangup(call)] + []);
      && Feasible(s, run)
      && var t := Run(s, run);
        && t.media.sessions == [Session(1, call, true, flow, Nothing)]
        && |t.past.hangups| == |s.past.hangups| + 1
        && t.past.hangups[|s.past.hangups|].bridged && t.past.hangups[|s.past.hangups|].closing
  {
    var closing := CloseById(s, 1);
    assert closing.media.sessions == [Session(1, call, true, flow, Nothing)];
    assert LegClosing(closing.media.sessions, call) by {
      assert closing.media.sessions[0].closed;
    }
    LastView.Then(closing, Hangup(call), []);
    LastView.Then(s, CloseLeg(1), [Hangup(call)] + []);
  }

  // ---- two legs on one dialog --------------------------------------------------

  lemma OfferOnOne(s: State)
    requires StreamingIds(s.book) == [1] && s.media.factory
    ensures var t := Step(s, Offer(None));
      t == Offered(s, 1) && t.book == s.book && t.media.factory
  {
  }

  lemma ThreeOffers(s: State)
    requires s.media == Media([], 0, true)
    ensures Offered(Offered(Offered(s, 1), 1), 1).media
      == Media([Session(1, 1, true, WAITING, Reoffer), Session(2, 1, false, WAITING, Nothing)], 2, true)
  {
    assert Offered(s, 1).media == Media([Session(1, 1, false, WAITING, Nothing)], 1, true);
    assert Offered(Offered(s, 1), 1).media == Media([Session(1, 1, true, WAITING, Reoffer)], 1, true);
  }

  lemma ThenTornDown(s: State)
    requires s.media
      == Media([Session(1, 1, true, WAITING, Reoffer), Session(2, 1, false, WAITING, Nothing)], 2, true)
    ensures Enabled(s, TornDown(1)) && Step(s, TornDown(1)).media.sessions
      == [Session(2, 1, false, WAITING, Nothing), Session(3, 1, false, WAITING, Nothing)]
  {
    assert ById(s.media.sessions, 1) == 0;
    assert s.media.sessions[..0] + s.media.sessions[1..] == [Session(2, 1, false, WAITING, Nothing)];
  }

  // Three offers on one dialog, the second still replacing the first leg when the third
  // arrives: both of the last two end up with a leg of their own, and both legs are live.
  lemma OverlappingOffersMakeTwo(s: State)
    requires StreamingIds(s.book) == [1] && s.media == Media([], 0, true)
    ensures Feasible(s, [Offer(None)] + ([Offer(None)] + ([Offer(None)] + ([TornDown(1)] + []))))
    ensures Run(s, [Offer(None)] + ([Offer(None)] + ([Offer(None)] + ([TornDown(1)] + [])))).media.sessions
      == [Session(2, 1, false, WAITING, Nothing), Session(3, 1, false, WAITING, Nothing)]
  {
    var s1, s2, s3 := Offered(s, 1), Offered(Offered(s, 1), 1), Offered(Offered(Offered(s, 1), 1), 1);
    OfferOnOne(s);
    OfferOnOne(s1);
    OfferOnOne(s2);
    ThreeOffers(s);
    ThenTornDown(s3);
    LastView.Then(s3, TornDown(1), []);
    LastView.Then(s2, Offer(None), [TornDown(1)] + []);
    LastView.Then(s1, Offer(None), [Offer(None)] + ([TornDown(1)] + []));
    LastView.Then(s, Offer(None), [Offer(None)] + ([Offer(None)] + ([TornDown(1)] + [])));
  }
}
