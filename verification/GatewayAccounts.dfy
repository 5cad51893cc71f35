// What every run of the gateway amounts to, read off the run itself: which events went out,
// what became of each coroutine set going, and what opened and closed the legs.

// Every event, and what it answers.
module Answers {
  import opened Options
  import opened CallEntries
  import opened GatewayModel
  import GatewayLaws

  // The log without its states.
  function Spoken(log: seq<Event>): seq<Event> {
    if log == [] then []
    else
      var last := log[|log| - 1];
      Spoken(log[..|log| - 1]) + if last.StateEvent? then [] else [last]
  }

  // What an open says: acknowledged when it returned, not acknowledged when the panel never
  // answered, and nothing when it raised or was cancelled.
  function OpenSays(actuator: ActuatorName, outcome: Outcome): seq<Event> {
    if outcome.Returned? then [OpenEvent(actuator, true)]
    else if outcome == Unacknowledged then [OpenEvent(actuator, false)]
    else []
  }

  // A leg still open says what flows through it; one closing or gone says it is closed.
  function LegSays(s: State, id: nat, call: CallId): Event {
    var i := ById(s.media.sessions, id);
    if i == |s.media.sessions| then WebrtcEvent(id, call, CLOSED)
    else
      var x := s.media.sessions[i];
      WebrtcEvent(id, x.call, if x.closed then CLOSED else x.flow)
  }

  // A dialog not known, or known in another state.
  predicate IsNews(b: Book, id: CallId, state: CallState) { !(id in b.calls && b.calls[id].state == state) }

  function SideOf(s: State, id: CallId): Direction {
    if id !in s.book.rang && s.own.inviting != 0 then OUTGOING else INCOMING
  }

  // The events a step answers with, states apart.
  function Answer(s: State, a: Action): seq<Event>
    requires Enabled(s, a)
  {
    match a
    case Rings(call) => [RingEvent(call)]
    case Reports(handle, state) =>
      if IsNews(s.book, handle.id, state) then [CallEvent(handle.id, state, SideOf(s, handle.id))] else []
    case Publishes(registered, status, released) =>
      [RegistrationEvent(registered, status, released != Some(false))]
    case TornDown(id) => [WebrtcEvent(id, s.media.sessions[ById(s.media.sessions, id)].call, CLOSED)]
    case MediaChanged(id) => [LegSays(s, id, 0)]
    case Resume(task, outcome) => BackSays(s, task, outcome)
    case _ => []
  }

  // A coroutine that came back.
  function BackSays(s: State, task: Task, outcome: Outcome): seq<Event> {
    match task
    case OnDemand(actuator) => OpenSays(actuator, outcome)
    case During(actuator) => OpenSays(actuator, outcome)
    case Offering(id, call) => if outcome.Returned? then [LegSays(s, id, call)] else []
    case _ => []
  }

  function AnswersOver(s: State, run: seq<Action>): seq<Event>
    requires Feasible(s, run)
    decreases |run|
  {
    if run == [] then [] else Answer(s, run[0]) + AnswersOver(Step(s, run[0]), run[1..])
  }

  lemma SpokenMore(log: seq<Event>, event: Event)
    ensures Spoken(log + [event]) == Spoken(log) + if event.StateEvent? then [] else [event]
  {
    assert (log + [event])[..|log|] == log;
  }

  lemma PublishSays(s: State, event: Event)
    requires !event.StateEvent?
    ensures Spoken(Publish(s, event).log) == Spoken(s.log) + [event]
  {
    SpokenMore(s.log, event);
    SpokenMore(s.log + [event], StateEvent(Snapshot(Put(s, event))));
  }

  lemma StateSays(s: State)
    ensures Spoken(PublishState(s).log) == Spoken(s.log)
  {
    SpokenMore(s.log, StateEvent(Snapshot(s)));
  }

  lemma RecordedSays(s: State, handle: CallHandle, state: CallState)
    ensures var (book, news) := Recorded(s.book, handle, state, Guess(s), false);
      && news == IsNews(s.book, handle.id, state)
      && book.calls[handle.id].direction == SideOf(s, handle.id)
  {
  }

  lemma EndedSays(s: State, id: CallId, book: Book)
    ensures Spoken(PublishState(CallEnded(s, id).(book := book)).log) == Spoken(s.log)
  {
    assert CallEnded(s, id).log == s.log;
    StateSays(CallEnded(s, id).(book := book));
  }

  lemma ReportSays(s: State, handle: CallHandle, state: CallState)
    ensures Spoken(CallStateArrived(s, handle, state).log)
         == Spoken(s.log) + if IsNews(s.book, handle.id, state)
                            then [CallEvent(handle.id, state, SideOf(s, handle.id))] else []
  {
    var (book, news) := Recorded(s.book, handle, state, Guess(s), false);
    RecordedSays(s, handle, state);
    if news {
      var t := Noted(s, Reported(handle.id, state.Ended?)).(book := book);
      var event := CallEvent(handle.id, state, book.calls[handle.id].direction);
      PublishSays(t, event);
      EndedSays(Publish(t, event), handle.id, Forgotten(book, handle.id));
    }
  }

  lemma OpenedSays(s: State, actuator: ActuatorName, outcome: Outcome)
    ensures Spoken(Opened(s, actuator, outcome).log) == Spoken(s.log) + OpenSays(actuator, outcome)
  {
    PublishSays(s, OpenEvent(actuator, true));
    PublishSays(s, OpenEvent(actuator, false));
  }

  lemma HungUpSays(s: State, call: CallId, next: Next)
    ensures Spoken(HungUp(s, call, next).log) == Spoken(s.log)
  {
    var t := Noted(s, Dropped(call)).(book := Forgotten(s.book, call));
    StateSays(t);
    if next.Place? { GatewayLaws.ProceedLeaves(PublishState(t), next.rest); }
  }

  lemma SharpenedSays(s: State, handle: CallHandle, direction: Direction)
    ensures Spoken(Sharpened(s, handle, direction).log) == Spoken(s.log)
  {
    StateSays(s.(book := Recorded(s.book, handle, Streaming, direction, true).0));
  }

  lemma FinishSays(s: State, i: nat)
    requires i < |s.media.sessions|
    ensures Spoken(Finish(s, i).log)
         == Spoken(s.log) + [WebrtcEvent(s.media.sessions[i].id, s.media.sessions[i].call, CLOSED)]
  {
    var x := s.media.sessions[i];
    PublishSays(Legs(s, s.media.sessions[..i] + s.media.sessions[i + 1..]), WebrtcEvent(x.id, x.call, CLOSED));
  }

  lemma LegSaysIt(s: State, id: nat, call: CallId)
    ensures LegEvent(s, id, call) == LegSays(s, id, call)
  {
  }

  lemma MutingSays(s: State, muted: bool, outcome: Outcome)
    ensures Spoken(Resumed(s, Muting(muted), outcome).log) == Spoken(s.log)
  {
    StateSays(s.(own := s.own.(micMuted := muted)));
  }

  lemma OfferingSays(s: State, id: nat, call: CallId, outcome: Outcome)
    ensures Spoken(Resumed(s, Offering(id, call), outcome).log)
         == Spoken(s.log) + BackSays(s, Offering(id, call), outcome)
  {
    LegSaysIt(s, id, call);
    PublishSays(s, LegEvent(s, id, call));
  }

  lemma ResumedSays(s: State, task: Task, outcome: Outcome)
    ensures Spoken(Resumed(s, task, outcome).log) == Spoken(s.log) + BackSays(s, task, outcome)
  {
    match task
    case Inviting => if outcome.Returned? { SharpenedSays(Uninvited(s), outcome.handle, OUTGOING); }
    case OnDemand(actuator) => OpenedSays(Uninvited(s), actuator, outcome);
    case During(actuator) => OpenedSays(s, actuator, outcome);
    case Answering(handle) => if outcome.Returned? { SharpenedSays(s, handle, INCOMING); }
    case HangingUp(call, next) => if outcome.Returned? { HungUpSays(s, call, next); }
    case Muting(muted) => MutingSays(s, muted, outcome);
    case Offering(id, call) => OfferingSays(s, id, call, outcome);
    case Grace(_) => assert Resumed(s, task, outcome).log == s.log;
    case Ending(_) => assert Resumed(s, task, outcome).log == s.log;
  }

  predicate FromOutside(a: Action) { a.Rings? || a.Reports? || a.TornDown? || a.MediaChanged? }

  lemma OutsideAnswers(s: State, a: Action)
    requires Enabled(s, a) && FromOutside(a)
    ensures Spoken(Step(s, a).log) == Spoken(s.log) + Answer(s, a)
  {
    match a
    case Rings(call) => PublishSays(Noted(s, Rang(call)).(book := Marked(s.book, call)), RingEvent(call));
    case Reports(handle, state) => ReportSays(s, handle, state);
    case TornDown(id) => FinishSays(s, ById(s.media.sessions, id));
    case MediaChanged(id) =>
      LegSaysIt(s, id, 0);
      PublishSays(s, LegEvent(s, id, 0));
  }

  lemma SameSays(s: State, t: State, task: Task, outcome: Outcome)
    requires s.media == t.media
    ensures BackSays(t, task, outcome) == BackSays(s, task, outcome)
  {
  }

  lemma BackAnswers(s: State, task: Task, outcome: Outcome)
    requires task in s.tasks
    ensures Spoken(Step(s, Resume(task, outcome)).log) == Spoken(s.log) + Answer(s, Resume(task, outcome))
  {
    var t := s.(tasks := s.tasks - multiset{task});
    ResumedSays(t, task, outcome);
    SameSays(s, t, task, outcome);
    assert Answer(s, Resume(task, outcome)) == BackSays(s, task, outcome);
  }

  lemma ClearingAnswers(s: State)
    ensures Spoken(Step(s, ClearCalls).log) == Spoken(s.log)
  {
    StateSays(Noted(s, Cleared).(book := NO_CALLS));
  }

  lemma StepAnswers(s: State, a: Action)
    requires Enabled(s, a)
    ensures Spoken(Step(s, a).log) == Spoken(s.log) + Answer(s, a)
  {
    if FromOutside(a) {
      OutsideAnswers(s, a);
    } else if a.Resume? {
      BackAnswers(s, a.task, a.outcome);
    } else if a.Publishes? {
      PublishSays(s, RegistrationEvent(a.registered, a.status, a.released.None? || a.released.value));
    } else {
      if a.ClearCalls? {
        ClearingAnswers(s);
      } else if a.PlaceCall? {
        GatewayLaws.ProceedLeaves(s, StreamingIds(s.book));
      } else {
        GatewayLaws.OthersAreSilent(s, a);
      }
      assert Answer(s, a) == [];
    }
  }

  lemma {:induction false} AnswersThrough(s: State, run: seq<Action>)
    requires Feasible(s, run)
    ensures Spoken(Run(s, run).log) == Spoken(s.log) + AnswersOver(s, run)
    decreases |run|
  {
    if run != [] {
      StepAnswers(s, run[0]);
      AnswersThrough(Step(s, run[0]), run[1..]);
    }
  }

  // In every run the events that went out, states apart, are the answers to what happened,
  // one each and in order: a ring for a ring, a call for news of a dialog and the side it is
  // on, an open for an open that returned or was not acknowledged, a leg for a leg.
  lemma EveryEventAnswers(factory: bool, run: seq<Action>)
    requires Feasible(Start(factory), run)
    ensures Spoken(Run(Start(factory), run).log) == AnswersOver(Start(factory), run)
  {
    AnswersThrough(Start(factory), run);
  }

  // ---- the opens ---------------------------------------------------------------

  function Opens(log: seq<Event>): seq<Event> {
    if log == [] then []
    else
      var last := log[|log| - 1];
      Opens(log[..|log| - 1]) + if last.OpenEvent? then [last] else []
  }

  predicate Opening(a: Action) { a.Resume? && (a.task.OnDemand? || a.task.During?) }

  // What the opens that came back in this run are to say.
  function OpensOver(run: seq<Action>): seq<Event> {
    if run == [] then []
    else
      (if Opening(run[0]) then OpenSays(run[0].task.actuator, run[0].outcome) else []) + OpensOver(run[1..])
  }

  lemma {:induction false} OpensSpoken(log: seq<Event>)
    ensures Opens(log) == Opens(Spoken(log))
  {
    if log != [] {
      var before, last := Spoken(log[..|log| - 1]), log[|log| - 1];
      OpensSpoken(log[..|log| - 1]);
      OpensMore(before, [last]);
      OpensOne(last);
      assert before + [] == before;
    }
  }

  lemma {:induction false} OpensMore(log: seq<Event>, more: seq<Event>)
    ensures Opens(log + more) == Opens(log) + Opens(more)
    decreases |more|
  {
    if more != [] {
      var last := |more| - 1;
      assert (log + more)[..|log + more| - 1] == log + more[..last];
      OpensMore(log, more[..last]);
    } else {
      assert log + more == log;
    }
  }

  lemma OpensOne(event: Event)
    ensures Opens([event]) == if event.OpenEvent? then [event] else []
  {
    assert [event][..0] == [];
  }

  lemma OneAnswerOpens(s: State, a: Action)
    requires Enabled(s, a)
    ensures Opens(Answer(s, a)) == if Opening(a) then OpenSays(a.task.actuator, a.outcome) else []
  {
    if Answer(s, a) != [] { OpensOne(Answer(s, a)[0]); }
  }

  lemma {:induction false} AnswersOpen(s: State, run: seq<Action>)
    requires Feasible(s, run)
    ensures Opens(AnswersOver(s, run)) == OpensOver(run)
    decreases |run|
  {
    if run != [] {
      OneAnswerOpens(s, run[0]);
      AnswersOpen(Step(s, run[0]), run[1..]);
      OpensMore(Answer(s, run[0]), AnswersOver(Step(s, run[0]), run[1..]));
    }
  }

  // So the opens told, in order, are those that came back: acknowledged exactly when the open
  // returned, not acknowledged exactly when the panel gave no answer, and no word at all of
  // one that raised or was cancelled.
  lemma OpensAreToldAsTheyWent(factory: bool, run: seq<Action>)
    requires Feasible(Start(factory), run)
    ensures Opens(Run(Start(factory), run).log) == OpensOver(run)
  {
    EveryEventAnswers(factory, run);
    OpensSpoken(Run(Start(factory), run).log);
    AnswersOpen(Start(factory), run);
  }
}

// Every coroutine the service sets going, and what becomes of it.
module Coroutines {
  import opened Options
  import opened CallEntries
  import opened GatewayModel
  import GatewayLaws
  import Answers

  predicate Monitor(b: Book, id: CallId) { id in b.calls && b.calls[id].direction.OUTGOING? }

  // `place_call` with these monitors still to look at: the hang-up of the first that is
  // one, carrying the rest, or the INVITE.
  function Onward(b: Book, rest: seq<CallId>): Task {
    if rest == [] then Inviting
    else if Monitor(b, rest[0]) then HangingUp(rest[0], Place(rest[1..]))
    else Onward(b, rest[1..])
  }

  // The INVITE goes out only with no monitor left among them; and it is the first one left
  // that is hung up before it.
  lemma {:induction false} MonitorsGoFirst(b: Book, rest: seq<CallId>)
    ensures Onward(b, rest).Inviting? <==> forall i | 0 <= i < |rest| :: !Monitor(b, rest[i])
    ensures !Onward(b, rest).Inviting? ==> exists i | 0 <= i < |rest| ::
      && Monitor(b, rest[i]) && (forall k | 0 <= k < i :: !Monitor(b, rest[k]))
      && Onward(b, rest) == HangingUp(rest[i], Place(rest[i + 1..]))
  {
    if rest != [] && !Monitor(b, rest[0]) {
      MonitorsGoFirst(b, rest[1..]);
      if k :| 0 <= k < |rest| && Monitor(b, rest[k]) {
        assert Monitor(b, rest[1..][k - 1]);
      }
      if !Onward(b, rest).Inviting? {
        var i :| 0 <= i < |rest[1..]| && Monitor(b, rest[1..][i])
          && (forall k | 0 <= k < i :: !Monitor(b, rest[1..][k]))
          && Onward(b, rest[1..]) == HangingUp(rest[1..][i], Place(rest[1..][i + 1..]));
        assert rest[i + 1] == rest[1..][i] && rest[1..][i + 1..] == rest[i + 2..];
        forall k | 0 <= k < i + 1 ensures !Monitor(b, rest[k]) {
          if k > 0 { assert rest[k] == rest[1..][k - 1]; }
        }
      }
    }
  }

  // The first leg on the dialog is there, and nobody has begun to close it.
  predicate LegUp(s: State, call: CallId) {
    var i := ForCall(s.media.sessions, call);
    i < |s.media.sessions| && !s.media.sessions[i].closed
  }

  // What a step sets going: at once, or as soon as the leg in its way is gone.
  function Asks(s: State, a: Action): Option<Task>
    requires Enabled(s, a)
  {
    match a
    case PlaceCall => Some(Onward(s.book, StreamingIds(s.book)))
    case Hangup(call) => if call in s.book.calls then Some(HangingUp(call, End)) else None
    case Answer(call) => if call in s.book.calls then Some(Answering(s.book.calls[call].handle)) else None
    case SetMic(muted) => Some(Muting(muted))
    case Realign => Some(Muting(s.own.micMuted))
    case Open(actuator) =>
      if Streams(s.book) then Some(During(actuator)) else Some(OnDemand(actuator))
    case Offer(named) => if Picked(s, named).Ok? then AsksOffer(s, Picked(s, named).value) else None
    case Reports(handle, state) => if state.Ended? then AsksEnd(s, handle.id) else None
    case TornDown(id) =>
      var x := s.media.sessions[ById(s.media.sessions, id)];
      if x.after.Reoffer? then Some(Offering(s.media.made + 1, x.call)) else None
    case Resume(task, outcome) => AsksBack(s, task, outcome)
    case _ => None
  }

  // A leg at once, unless there is one to replace.
  function AsksOffer(s: State, call: CallId): Option<Task> {
    if LegUp(s, call) then None else Some(Offering(s.media.made + 1, call))
  }

  // The leg of a dialog that is over is closed by a task of its own.
  function AsksEnd(s: State, call: CallId): Option<Task> {
    if Bridged(s, call) then Some(Ending(s.media.sessions[ForCall(s.media.sessions, call)].id)) else None
  }

  // What a coroutine sets going as it comes back.
  function AsksBack(s: State, task: Task, outcome: Outcome): Option<Task> {
    match task
    case HangingUp(call, Place(rest)) =>
      if outcome.Returned? then Some(Onward(Forgotten(s.book, call), rest)) else None
    case Grace(call) =>
      if outcome.Returned? && Orphaned(s, call) then Some(HangingUp(call, End)) else None
    case _ => None
  }

  // Besides, the last leg on a monitor of ours, gone, leaves it its grace.
  function Reprieves(s: State, a: Action): Option<Task>
    requires Enabled(s, a)
  {
    if a.TornDown? then Reprieve(s, ById(s.media.sessions, a.session)) else None
  }

  function Reprieve(s: State, i: nat): Option<Task>
    requires i < |s.media.sessions|
  {
    var call := s.media.sessions[i].call;
    if (forall k | 0 <= k < |s.media.sessions| && k != i :: s.media.sessions[k].call != call)
      && MediaUp(s.book, call) && Monitor(s.book, call)
    then Some(Grace(call)) else None
  }

  function One(task: Option<Task>, k: Task): nat { if task == Some(k) then 1 else 0 }

  // The hang-up a leg has in its way.
  function Behind(x: Session): Option<Task> {
    if x.after.HangUp? then Some(HangingUp(x.call, x.after.next)) else None
  }

  function Waiting(sessions: seq<Session>, k: Task): nat {
    if sessions == [] then 0
    else Waiting(sessions[..|sessions| - 1], k) + One(Behind(sessions[|sessions| - 1]), k)
  }

  // Come back, or lost with a teardown that was cut.
  function Leaves(s: State, a: Action): Option<Task>
    requires Enabled(s, a)
  {
    match a
    case Resume(task, _) => Some(task)
    case Cut(id) => Behind(s.media.sessions[ById(s.media.sessions, id)])
    case _ => None
  }

  // How many of a coroutine there are, in flight or behind a leg.
  function Held(s: State, k: Task): nat { s.tasks[k] + Waiting(s.media.sessions, k) }

  // Only a leg on its way out has anything behind it.
  ghost predicate Free(sessions: seq<Session>) {
    forall i | 0 <= i < |sessions| && !sessions[i].closed :: sessions[i].after.Nothing?
  }

  lemma WaitingMore(sessions: seq<Session>, x: Session, k: Task)
    ensures Waiting(sessions + [x], k) == Waiting(sessions, k) + One(Behind(x), k)
  {
    assert (sessions + [x])[..|sessions|] == sessions;
  }

  lemma {:induction false} WaitingChanged(sessions: seq<Session>, i: nat, x: Session, k: Task)
    requires i < |sessions|
    ensures Waiting(sessions[i := x], k)
         == Waiting(sessions, k) - One(Behind(sessions[i]), k) + One(Behind(x), k)
  {
    var last := |sessions| - 1;
    var before := sessions[..last];
    if i < last {
      WaitingChanged(before, i, x, k);
      assert sessions[i := x][..last] == before[i := x];
    } else {
      assert sessions[i := x][..last] == before;
    }
  }

  lemma {:induction false} WaitingLess(sessions: seq<Session>, i: nat, k: Task)
    requires i < |sessions|
    ensures Waiting(sessions[..i] + sessions[i + 1..], k) == Waiting(sessions, k) - One(Behind(sessions[i]), k)
  {
    var last := |sessions| - 1;
    var before, rest := sessions[..last], sessions[..i] + sessions[i + 1..];
    if i < last {
      WaitingLess(before, i, k);
      assert rest == (before[..i] + before[i + 1..]) + [sessions[last]];
      WaitingMore(before[..i] + before[i + 1..], sessions[last], k);
    } else {
      assert rest == before;
    }
  }

  lemma ClosingHolds(s: State, i: nat, after: Then, k: Task)
    requires Free(s.media.sessions) && i < |s.media.sessions|
    ensures var x := s.media.sessions[i];
      && Held(Closing(s, i, after), k)
           == Held(s, k) - One(Behind(x), k) + One(Behind(x.(closed := true, after := after)), k)
      && Free(Closing(s, i, after).media.sessions)
  {
    WaitingChanged(s.media.sessions, i, s.media.sessions[i].(closed := true, after := after), k);
  }

  lemma HangHolds(s: State, call: CallId, next: Next, reaped: bool, k: Task)
    requires Free(s.media.sessions)
    ensures var t := Hang(s, call, next, reaped);
      Held(t, k) == Held(s, k) + One(Some(HangingUp(call, next)), k) && Free(t.media.sessions)
  {
    if LegUp(s, call) { ClosingHolds(s, ForCall(s.media.sessions, call), HangUp(next), k); }
  }

  lemma {:induction false} ProceedHolds(s: State, rest: seq<CallId>, k: Task)
    requires Free(s.media.sessions)
    ensures var t := Proceed(s, rest);
      Held(t, k) == Held(s, k) + One(Some(Onward(s.book, rest)), k) && Free(t.media.sessions)
    decreases |rest|
  {
    if rest != [] {
      if Monitor(s.book, rest[0]) {
        HangHolds(s, rest[0], Place(rest[1..]), false, k);
      } else {
        ProceedHolds(s, rest[1..], k);
      }
    }
  }

  lemma CloseHolds(s: State, id: nat, k: Task)
    requires Free(s.media.sessions)
    ensures Held(CloseById(s, id), k) == Held(s, k) && Free(CloseById(s, id).media.sessions)
  {
    var i := ById(s.media.sessions, id);
    if i < |s.media.sessions| && !s.media.sessions[i].closed { ClosingHolds(s, i, Nothing, k); }
  }

  lemma NewLegHolds(s: State, call: CallId, k: Task)
    requires Free(s.media.sessions)
    ensures var t := NewLeg(s, call);
      && Held(t, k) == Held(s, k) + One(Some(Offering(s.media.made + 1, call)), k)
      && Free(t.media.sessions)
  {
    WaitingMore(s.media.sessions, Session(s.media.made + 1, call, false, WAITING, Nothing), k);
  }

  lemma OfferedHolds(s: State, call: CallId, k: Task)
    requires Free(s.media.sessions)
    ensures var t := Offered(s, call);
      Held(t, k) == Held(s, k) + One(AsksOffer(s, call), k) && Free(t.media.sessions)
  {
    if LegUp(s, call) {
      ClosingHolds(s, ForCall(s.media.sessions, call), Reoffer, k);
    } else {
      NewLegHolds(s, call, k);
    }
  }

  lemma BridgedIsThere(sessions: seq<Session>, call: CallId)
    ensures ForCall(sessions, call) < |sessions|
       <==> exists i | 0 <= i < |sessions| :: sessions[i].call == call
  {
    var i := ForCall(sessions, call);
    if i < |sessions| { assert sessions[i].call == call; }
  }

  // Whether a leg was the last one on its dialog.
  lemma LastOne(sessions: seq<Session>, i: nat)
    requires i < |sessions|
    ensures var rest := sessions[..i] + sessions[i + 1..];
      ForCall(rest, sessions[i].call) < |rest|
      <==> !(forall k | 0 <= k < |sessions| && k != i :: sessions[k].call != sessions[i].call)
  {
    var rest := sessions[..i] + sessions[i + 1..];
    BridgedIsThere(rest, sessions[i].call);
    forall k | 0 <= k < |sessions| && k != i ensures sessions[k] == rest[if k < i then k else k - 1] {
    }
  }

  lemma RemovedHolds(s: State, i: nat, k: Task)
    requires Free(s.media.sessions) && i < |s.media.sessions|
    ensures var t := Legs(s, s.media.sessions[..i] + s.media.sessions[i + 1..]);
      && Held(t, k) == Held(s, k) - One(Behind(s.media.sessions[i]), k)
      && Free(t.media.sessions)
      && (Orphaned(t, s.media.sessions[i].call) <==> Reprieve(s, i).Some?)
  {
    WaitingLess(s.media.sessions, i, k);
    LastOne(s.media.sessions, i);
  }

  lemma ToldHolds(s: State, x: Session, k: Task)
    ensures var t := SessionClosed(s, x);
      && t.media == s.media && t.book == s.book && t.past.hangups == s.past.hangups
      && Held(t, k) == Held(s, k) + One(if Orphaned(s, x.call) then Some(Grace(x.call)) else None, k)
  {
  }

  lemma SubmitHolds(s: State, call: CallId, next: Next, closing: bool, k: Task)
    ensures var t := Submit(s, call, next, false, closing);
      t.media == s.media && Held(t, k) == Held(s, k) + One(Some(HangingUp(call, next)), k)
  {
  }

  ghost predicate Goes(s: State, i: nat, k: Task)
    requires i < |s.media.sessions|
  {
    var t, x := Finish(s, i), s.media.sessions[i];
    && Held(t, k) == Held(s, k) + One(Reprieve(s, i), k)
         + One(if x.after.Reoffer? then Some(Offering(s.media.made + 1, x.call)) else None, k)
    && Free(t.media.sessions)
  }

  lemma OutHolds(s: State, i: nat, k: Task)
    requires Free(s.media.sessions) && i < |s.media.sessions|
    ensures var x := s.media.sessions[i];
      var t := SessionClosed(Legs(s, s.media.sessions[..i] + s.media.sessions[i + 1..]), x);
      && Held(t, k) == Held(s, k) - One(Behind(x), k) + One(Reprieve(s, i), k)
      && Free(t.media.sessions) && t.media.made == s.media.made
  {
    RemovedHolds(s, i, k);
    ToldHolds(Legs(s, s.media.sessions[..i] + s.media.sessions[i + 1..]), s.media.sessions[i], k);
  }

  lemma FinishHangs(s: State, i: nat, k: Task)
    requires Free(s.media.sessions) && i < |s.media.sessions| && s.media.sessions[i].after.HangUp?
    ensures Goes(s, i, k)
  {
    var x := s.media.sessions[i];
    var t := SessionClosed(Legs(s, s.media.sessions[..i] + s.media.sessions[i + 1..]), x);
    OutHolds(s, i, k);
    SubmitHolds(t, x.call, x.after.next, x.id in s.past.asked && s.past.asked[x.id], k);
  }

  lemma FinishOffers(s: State, i: nat, k: Task)
    requires Free(s.media.sessions) && i < |s.media.sessions| && !s.media.sessions[i].after.HangUp?
    ensures Goes(s, i, k)
  {
    var x := s.media.sessions[i];
    OutHolds(s, i, k);
    if x.after.Reoffer? {
      NewLegHolds(SessionClosed(Legs(s, s.media.sessions[..i] + s.media.sessions[i + 1..]), x), x.call, k);
    }
  }

  // A leg's last step: it is out, its monitor may be given a grace, and what waited for it
  // goes on.
  lemma FinishHolds(s: State, i: nat, k: Task)
    requires Free(s.media.sessions) && i < |s.media.sessions|
    ensures Goes(s, i, k)
  {
    if s.media.sessions[i].after.HangUp? { FinishHangs(s, i, k); } else { FinishOffers(s, i, k); }
  }

  lemma HungUpHolds(s: State, call: CallId, next: Next, k: Task)
    requires Free(s.media.sessions)
    ensures var t := HungUp(s, call, next);
      && Held(t, k) == Held(s, k)
           + One(if next.Place? then Some(Onward(Forgotten(s.book, call), next.rest)) else None, k)
      && Free(t.media.sessions)
  {
    var t := PublishState(Noted(s, Dropped(call)).(book := Forgotten(s.book, call)));
    assert Held(t, k) == Held(s, k);
    if next.Place? { ProceedHolds(t, next.rest, k); }
  }

  lemma ResumedHolds(s: State, task: Task, outcome: Outcome, k: Task)
    requires Free(s.media.sessions)
    ensures var t := Resumed(s, task, outcome);
      Held(t, k) == Held(s, k) + One(AsksBack(s, task, outcome), k) && Free(t.media.sessions)
  {
    match task
    case HangingUp(call, next) => if outcome.Returned? { HungUpHolds(s, call, next, k); }
    case Grace(call) => if outcome.Returned? && Orphaned(s, call) { HangHolds(s, call, End, true, k); }
    case Offering(id, _) => CloseHolds(s, id, k);
    case Ending(id) => CloseHolds(s, id, k);
    case _ => assert Held(Resumed(s, task, outcome), k) == Held(s, k);
  }

  lemma BackHolds(s: State, task: Task, outcome: Outcome, k: Task)
    requires Free(s.media.sessions) && task in s.tasks
    ensures Balances(s, Resume(task, outcome), k)
  {
    var u := s.(tasks := s.tasks - multiset{task});
    assert Held(u, k) + One(Some(task), k) == Held(s, k);
    ResumedHolds(u, task, outcome, k);
    assert AsksBack(u, task, outcome) == AsksBack(s, task, outcome);
  }

  lemma CallEndedTasks(s: State, id: CallId)
    ensures CallEnded(s, id).media == s.media
    ensures CallEnded(s, id).tasks
         == s.tasks + if AsksEnd(s, id).Some? then multiset{AsksEnd(s, id).value} else multiset{}
  {
  }

  lemma PublishLeavesTasks(s: State, event: Event)
    ensures var t := Publish(s, event); t.media == s.media && t.tasks == s.tasks
  {
  }

  lemma ReportTasks(s: State, handle: CallHandle, state: CallState)
    ensures var t := CallStateArrived(s, handle, state);
      && t.media == s.media
      && t.tasks == if state.Ended? && Answers.IsNews(s.book, handle.id, state)
                    then CallEnded(s, handle.id).tasks else s.tasks
  {
    var (book, news) := Recorded(s.book, handle, state, Guess(s), false);
    Answers.RecordedSays(s, handle, state);
    if news {
      var u := Noted(s, Reported(handle.id, state.Ended?)).(book := book);
      var event := CallEvent(handle.id, state, book.calls[handle.id].direction);
      PublishLeavesTasks(u, event);
      CallEndedTasks(Publish(u, event), handle.id);
    }
  }

  // What is held after a step, what left, what was held and what was asked for balance.
  ghost predicate Balances(s: State, a: Action, k: Task)
    requires Enabled(s, a)
  {
    var t := Step(s, a);
    && Held(t, k) + One(Leaves(s, a), k) == Held(s, k) + One(Asks(s, a), k) + One(Reprieves(s, a), k)
    && Free(t.media.sessions)
  }

  predicate Streams(b: Book) { exists id | id in b.calls :: MediaUp(b, id) }

  lemma StreamingAny(b: Book)
    ensures Streams(b) <==> StreamingIds(b) != []
  {
    StreamingIsTheBook(b);
    if StreamingIds(b) != [] {
      assert StreamingIds(b)[0] in StreamingIds(b);
    }
  }

  lemma OpenHolds(s: State, actuator: ActuatorName, k: Task)
    requires Free(s.media.sessions)
    ensures Balances(s, Open(actuator), k)
  {
    StreamingAny(s.book);
  }

  lemma OfferHolds(s: State, named: Option<CallId>, k: Task)
    requires Free(s.media.sessions)
    ensures Balances(s, Offer(named), k)
  {
    if Picked(s, named).Ok? { OfferedHolds(s, Picked(s, named).value, k); }
  }

  lemma CutHolds(s: State, id: nat, k: Task)
    requires Free(s.media.sessions) && Enabled(s, Cut(id))
    ensures Balances(s, Cut(id), k)
  {
    ClosingHolds(s, ById(s.media.sessions, id), Never, k);
  }

  lemma TornDownHolds(s: State, id: nat, k: Task)
    requires Free(s.media.sessions) && Enabled(s, TornDown(id))
    ensures Balances(s, TornDown(id), k)
  {
    FinishHolds(s, ById(s.media.sessions, id), k);
  }

  lemma FlowHolds(s: State, id: nat, flow: SessionState, k: Task)
    requires Free(s.media.sessions) && Enabled(s, Flows(id, flow))
    ensures Balances(s, Flows(id, flow), k)
  {
    var i := ById(s.media.sessions, id);
    WaitingChanged(s.media.sessions, i, s.media.sessions[i].(flow := flow), k);
  }

  lemma PlaceHolds(s: State, k: Task)
    requires Free(s.media.sessions)
    ensures Balances(s, PlaceCall, k)
  {
    ProceedHolds(s, StreamingIds(s.book), k);
  }

  lemma HangupHolds(s: State, call: CallId, k: Task)
    requires Free(s.media.sessions)
    ensures Balances(s, Hangup(call), k)
  {
    if call in s.book.calls { HangHolds(s, call, End, false, k); }
  }

  lemma CloseLegHolds(s: State, id: nat, k: Task)
    requires Free(s.media.sessions)
    ensures Balances(s, CloseLeg(id), k)
  {
    CloseHolds(s, id, k);
  }

  // A dialog is over once: no entry is, so the report is news.
  lemma ReportHolds(s: State, handle: CallHandle, state: CallState, k: Task)
    requires Free(s.media.sessions) && GatewayLaws.NoneOver(s.book)
    ensures Balances(s, Reports(handle, state), k)
  {
    ReportTasks(s, handle, state);
    CallEndedTasks(s, handle.id);
  }

  predicate Simple(a: Action) {
    a.Rings? || a.Answer? || a.SetMic? || a.Realign? || a.MediaChanged? || a.Publishes?
    || a.BindingMoves? || a.ClearCalls?
  }

  lemma SimpleHolds(s: State, a: Action, k: Task)
    requires Free(s.media.sessions) && Enabled(s, a) && Simple(a)
    ensures Balances(s, a, k)
  {
  }

  lemma StepHolds(s: State, a: Action, k: Task)
    requires Free(s.media.sessions) && GatewayLaws.NoneOver(s.book) && Enabled(s, a)
    ensures Balances(s, a, k)
  {
    match a
    case PlaceCall => PlaceHolds(s, k);
    case Hangup(call) => HangupHolds(s, call, k);
    case Open(actuator) => OpenHolds(s, actuator, k);
    case Offer(named) => OfferHolds(s, named, k);
    case CloseLeg(id) => CloseLegHolds(s, id, k);
    case Cut(id) => CutHolds(s, id, k);
    case TornDown(id) => TornDownHolds(s, id, k);
    case Flows(id, flow) => FlowHolds(s, id, flow, k);
    case Reports(handle, state) => ReportHolds(s, handle, state, k);
    case Resume(task, outcome) => BackHolds(s, task, outcome, k);
    case _ => SimpleHolds(s, a, k);
  }

  function AsksOver(s: State, run: seq<Action>, k: Task): nat
    requires Feasible(s, run)
    decreases |run|
  {
    if run == [] then 0
    else One(Asks(s, run[0]), k) + One(Reprieves(s, run[0]), k) + AsksOver(Step(s, run[0]), run[1..], k)
  }

  function LeavesOver(s: State, run: seq<Action>, k: Task): nat
    requires Feasible(s, run)
    decreases |run|
  {
    if run == [] then 0 else One(Leaves(s, run[0]), k) + LeavesOver(Step(s, run[0]), run[1..], k)
  }

  lemma {:induction false} HoldsThrough(s: State, run: seq<Action>, k: Task)
    requires GatewayLaws.True(s.book, s.past.reports) && Free(s.media.sessions) && Feasible(s, run)
    ensures var t := Run(s, run);
      && Held(t, k) + LeavesOver(s, run, k) == Held(s, k) + AsksOver(s, run, k)
      && GatewayLaws.True(t.book, t.past.reports) && Free(t.media.sessions)
    decreases |run|
  {
    if run != [] {
      GatewayLaws.TrueKept(s, run[0]);
      StepHolds(s, run[0], k);
      HoldsThrough(Step(s, run[0]), run[1..], k);
    }
  }

  // Nothing asked for is forgotten and nothing is done twice. In every run, and of every
  // coroutine: as often as a command, a callback or a leg set it going, it is in flight, or
  // waits for a leg to go, or came back, or was lost with a teardown that was cut.
  lemma EveryCoroutineIsAccountedFor(factory: bool, run: seq<Action>, k: Task)
    requires Feasible(Start(factory), run)
    ensures var s := Run(Start(factory), run);
      s.tasks[k] + Waiting(s.media.sessions, k) + LeavesOver(Start(factory), run, k)
        == AsksOver(Start(factory), run, k)
  {
    HoldsThrough(Start(factory), run, k);
  }

  // So a hang-up that waited for its leg is made: when the leg is torn down, one hang-up on
  // its dialog is submitted and no other, and it is in flight with what comes after it.
  lemma TheHangUpIsMade(s: State, id: nat)
    requires Enabled(s, TornDown(id))
    ensures var t := Step(s, TornDown(id)); var x := s.media.sessions[ById(s.media.sessions, id)];
      if x.after.HangUp? then
        && t.tasks[HangingUp(x.call, x.after.next)] == s.tasks[HangingUp(x.call, x.after.next)] + 1
        && |t.past.hangups| == |s.past.hangups| + 1 && s.past.hangups <= t.past.hangups
        && t.past.hangups[|s.past.hangups|].call == x.call
      else t.past.hangups == s.past.hangups
  {
  }
}
