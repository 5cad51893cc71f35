// What every run of the gateway keeps.
module GatewayLaws {
  import opened CallEntries
  import opened GatewayModel

  // ---- where the ids of the book come from --------------------------------------

  // The live ids, read off what was reported, dropped and cleared and nothing else: no
  // command appears in it.
  function Ids(reports: seq<Report>): set<CallId> {
    if reports == [] then {}
    else
      var ids := Ids(reports[..|reports| - 1]);
      match reports[|reports| - 1]
      case Reported(id, over) => if over then ids - {id} else ids + {id}
      case Rang(_) => ids
      case Dropped(id) => ids - {id}
      case Cleared => {}
  }

  // The ids the panel rang on and that have not been forgotten since.
  function Rung(reports: seq<Report>): set<CallId> {
    if reports == [] then {}
    else
      var ids := Rung(reports[..|reports| - 1]);
      match reports[|reports| - 1]
      case Reported(id, over) => if over then ids - {id} else ids
      case Rang(id) => ids + {id}
      case Dropped(id) => ids - {id}
      case Cleared => {}
  }

  ghost predicate NoneOver(b: Book) { forall id | id in b.calls :: !b.calls[id].state.Ended? }

  ghost predicate True(b: Book, reports: seq<Report>) {
    && b.calls.Keys == Ids(reports) && b.rang == Rung(reports)
    && Sided(b) && NoneOver(b)
  }

  lemma OneMore(reports: seq<Report>, report: Report)
    ensures var now := reports + [report];
      && now[..|now| - 1] == reports && now[|now| - 1] == report
  {
  }

  // The log, and beside it the snapshot as each event went out.
  datatype Trace = Trace(log: seq<Event>, instants: seq<StateView>)

  function TraceOf(s: State): Trace { Trace(s.log, s.past.instants) }

  // Hanging up and placing calls touch neither the book nor the log.
  lemma {:induction false} ProceedLeaves(s: State, rest: seq<CallId>)
    ensures var t := Proceed(s, rest);
      && t.book == s.book && t.past.reports == s.past.reports && TraceOf(t) == TraceOf(s)
      && t.own == s.own.(inviting := t.own.inviting)
    decreases |rest|
  {
    if rest != [] && !(rest[0] in s.book.calls && s.book.calls[rest[0]].direction.OUTGOING?) {
      ProceedLeaves(s, rest[1..]);
    }
  }

  // Every entry but this one's is still under way.
  ghost predicate OthersUp(b: Book, id: CallId) {
    forall x | x in b.calls && x != id :: !b.calls[x].state.Ended?
  }

  lemma RecordedSided(b: Book, handle: CallHandle, state: CallState, guess: Direction)
    requires Sided(b) && NoneOver(b)
    ensures var (book, news) := Recorded(b, handle, state, guess, false);
      && Sided(book) && OthersUp(book, handle.id)
      && (if state.Ended? then news else NoneOver(book))
  {
  }

  lemma ForgottenSided(b: Book, id: CallId)
    requires Sided(b) && OthersUp(b, id)
    ensures Sided(Forgotten(b, id)) && NoneOver(Forgotten(b, id))
  {
  }

  lemma ForgottenTrue(b: Book, reports: seq<Report>, id: CallId, book: Book)
    requires True(b, reports) && Sided(book) && OthersUp(book, id)
    requires book.rang == b.rang && book.calls.Keys == b.calls.Keys + {id}
    ensures True(Forgotten(book, id), reports + [Reported(id, true)])
  {
    OneMore(reports, Reported(id, true));
    ForgottenSided(book, id);
    assert Forgotten(book, id).calls.Keys == b.calls.Keys - {id};
  }

  lemma ReportedTrue(b: Book, reports: seq<Report>, handle: CallHandle, state: CallState, guess: Direction)
    requires True(b, reports)
    ensures var (book, news) := Recorded(b, handle, state, guess, false);
      var now := reports + [Reported(handle.id, state.Ended?)];
      if state.Ended? then news && True(Forgotten(book, handle.id), now) else True(book, now)
  {
    OneMore(reports, Reported(handle.id, state.Ended?));
    RecordedSided(b, handle, state, guess);
    if state.Ended? {
      ForgottenTrue(b, reports, handle.id, Recorded(b, handle, state, guess, false).0);
    }
  }

  lemma ReportTrue(s: State, handle: CallHandle, state: CallState)
    requires True(s.book, s.past.reports)
    ensures var t := CallStateArrived(s, handle, state); True(t.book, t.past.reports)
  {
    ReportedTrue(s.book, s.past.reports, handle, state, Guess(s));
  }

  lemma HungUpTrue(s: State, call: CallId, next: Next)
    requires True(s.book, s.past.reports)
    ensures var t := HungUp(s, call, next); True(t.book, t.past.reports)
  {
    OneMore(s.past.reports, Dropped(call));
    var t := PublishState(Noted(s, Dropped(call)).(book := Forgotten(s.book, call)));
    assert t.book.calls.Keys == s.book.calls.Keys - {call};
    if next.Place? {
      ProceedLeaves(t, next.rest);
    }
  }

  lemma SharpenedTrue(s: State, handle: CallHandle, direction: Direction)
    requires True(s.book, s.past.reports)
    ensures var t := Sharpened(s, handle, direction); True(t.book, t.past.reports)
  {
    var b := Recorded(s.book, handle, Streaming, direction, true).0;
    assert b.calls.Keys == s.book.calls.Keys;
  }

  lemma FinishLeaves(s: State, i: nat)
    requires i < |s.media.sessions|
    ensures var t := Finish(s, i); t.book == s.book && t.past.reports == s.past.reports
    ensures Finish(s, i).own.micMuted == s.own.micMuted
  {
  }

  lemma ResumedTrue(s: State, task: Task, outcome: Outcome)
    requires True(s.book, s.past.reports)
    ensures var t := Resumed(s, task, outcome); True(t.book, t.past.reports)
  {
    match task
    case Inviting => if outcome.Returned? { SharpenedTrue(Uninvited(s), outcome.handle, OUTGOING); }
    case Answering(handle) => SharpenedTrue(s, handle, INCOMING);
    case HangingUp(call, next) => HungUpTrue(s, call, next);
    case _ =>
  }

  lemma RingTrue(s: State, call: CallId)
    requires True(s.book, s.past.reports)
    ensures var t := RingArrived(s, call); True(t.book, t.past.reports)
  {
    OneMore(s.past.reports, Rang(call));
    assert Marked(s.book, call).calls.Keys == s.book.calls.Keys;
  }

  lemma ClearTrue(s: State)
    ensures True(NO_CALLS, s.past.reports + [Cleared])
  {
    OneMore(s.past.reports, Cleared);
  }

  predicate Bookkeeping(a: Action) {
    a.Rings? || a.Reports? || a.PlaceCall? || a.TornDown? || a.Resume? || a.ClearCalls?
  }

  lemma OthersLeave(s: State, a: Action)
    requires Enabled(s, a) && !Bookkeeping(a)
    ensures Step(s, a).book == s.book && Step(s, a).past.reports == s.past.reports
  {
  }

  lemma TrueKept(s: State, a: Action)
    requires True(s.book, s.past.reports) && Enabled(s, a)
    ensures var t := Step(s, a); True(t.book, t.past.reports)
  {
    if Bookkeeping(a) {
      match a
      case Rings(call) => RingTrue(s, call);
      case Reports(handle, state) => ReportTrue(s, handle, state);
      case PlaceCall => ProceedLeaves(s, StreamingIds(s.book));
      case TornDown(id) => FinishLeaves(s, ById(s.media.sessions, id));
      case Resume(task, outcome) =>
        ResumedTrue(s.(tasks := s.tasks - multiset{task}), task, outcome);
      case ClearCalls => ClearTrue(s);
    } else {
      OthersLeave(s, a);
    }
  }

  lemma {:induction false} TrueThrough(s: State, run: seq<Action>)
    requires True(s.book, s.past.reports) && Feasible(s, run)
    ensures var t := Run(s, run); True(t.book, t.past.reports)
    decreases |run|
  {
    if run != [] {
      TrueKept(s, run[0]);
      TrueThrough(Step(s, run[0]), run[1..]);
    }
  }

  // No resurrection. Whatever commands are in flight and in whatever order they come
  // back, the book holds exactly the dialogs the transport reported and nothing dropped;
  // none of them is over; and one the panel rang on reads incoming until it is forgotten.
  lemma OnlyTheTransportSaysSo(factory: bool, run: seq<Action>)
    requires Feasible(Start(factory), run)
    ensures var s := Run(Start(factory), run);
      && s.book.calls.Keys == Ids(s.past.reports)
      && (forall id | id in s.book.calls :: !s.book.calls[id].state.Ended?)
      && (forall id | id in s.book.calls && id in Rung(s.past.reports) ::
            s.book.calls[id].direction.INCOMING?)
  {
    TrueThrough(Start(factory), run);
  }

  // ---- a state follows every event ---------------------------------------------

  // The legs in the book, in the order they were made, and nothing numbered ahead.
  ghost predicate Numbered(media: Media) {
    && (forall i | 0 <= i < |media.sessions| :: media.sessions[i].id <= media.made)
    && (forall i, j | 0 <= i < j < |media.sessions| :: media.sessions[i].id < media.sessions[j].id)
  }

  // What an event says is what the view beside it shows.
  ghost predicate Agrees(event: Event, view: StateView) {
    match event
    case CallEvent(id, state, direction) =>
      && CallView(id, state, direction) in view.calls
      && forall v | v in view.calls && v.id == id :: v == CallView(id, state, direction)
    case RingEvent(id) => forall v | v in view.calls && v.id == id :: v.direction.INCOMING?
    case WebrtcEvent(id, call, leg) =>
      && (leg.CLOSED? || SessionView(id, call, leg) in view.sessions)
      && forall v | v in view.sessions && v.id == id :: v == SessionView(id, call, leg)
    case _ => true
  }

  // A state shows the gateway as it was when it went out; every other event is followed at
  // once by the state of the instant it went out itself, which agrees with it.
  ghost predicate FollowedAt(t: Trace, k: nat)
    requires k < |t.log| == |t.instants|
  {
    if t.log[k].StateEvent? then t.log[k].view == t.instants[k]
    else k + 1 < |t.log| && t.log[k + 1] == StateEvent(t.instants[k]) && Agrees(t.log[k], t.instants[k])
  }

  ghost predicate Followed(t: Trace, n: nat) {
    |t.log| == |t.instants| && forall k | n <= k < |t.log| :: FollowedAt(t, k)
  }

  // A log grown by whole blocks: events each with its state, and a state last.
  ghost predicate Grows(was: Trace, now: Trace) {
    && |was.log| == |was.instants|
    && was.log <= now.log && was.instants <= now.instants && Followed(now, |was.log|)
    && (now.log != was.log ==> now.log[|now.log| - 1].StateEvent?)
  }

  // What a step shows of the binding and the microphone is what they are at its end.
  ghost predicate Current(n: nat, t: State) {
    forall k | n <= k < |t.past.instants| ::
      t.past.instants[k].binding == t.own.binding && t.past.instants[k].micMuted == t.own.micMuted
  }

  ghost predicate Even(s: State) { |s.log| == |s.past.instants| }

  lemma GrowsOn(one: Trace, two: Trace, three: Trace)
    requires Grows(one, two) && Grows(two, three)
    ensures Grows(one, three)
  {
    forall k | |one.log| <= k < |three.log| ensures FollowedAt(three, k) {
      if k < |two.log| { assert FollowedAt(two, k); }
    }
  }

  lemma PublishGrows(s: State, event: Event)
    requires Even(s) && Agrees(event, Snapshot(s)) && !event.StateEvent?
    ensures var t := Publish(s, event); Grows(TraceOf(s), TraceOf(t)) && Current(|s.log|, t)
  {
    assert Snapshot(Put(s, event)) == Snapshot(s);
  }

  lemma StateGrows(s: State)
    requires Even(s)
    ensures var t := PublishState(s); Grows(TraceOf(s), TraceOf(t)) && Current(|s.log|, t)
  {
  }

  lemma {:induction false} LegsAgree(s: State, id: nat, call: CallId)
    requires Numbered(s.media)
    ensures Agrees(LegEvent(s, id, call), Snapshot(s))
  {
    var legs, views := s.media.sessions, LegViews(s.media);
    var i := ById(legs, id);
    if i < |legs| {
      assert views[i] == LegView(legs[i]);
      forall v | v in views && v.id == id ensures v == views[i] {
        var j :| 0 <= j < |views| && views[j] == v;
        assert legs[j].id == id;
      }
    } else {
      forall v | v in views ensures v.id != id {
        var j :| 0 <= j < |views| && views[j] == v;
        assert legs[j].id != id;
      }
    }
  }

  lemma ClosedAgrees(s: State, x: Session)
    requires forall i | 0 <= i < |s.media.sessions| :: s.media.sessions[i].id != x.id
    ensures Agrees(WebrtcEvent(x.id, x.call, CLOSED), Snapshot(s))
  {
    var views := LegViews(s.media);
    forall v | v in views ensures v.id != x.id {
      var j :| 0 <= j < |views| && views[j] == v;
      assert s.media.sessions[j].id != x.id;
    }
  }

  lemma CallAgrees(s: State, id: CallId)
    requires id in s.book.calls
    ensures var tracked := s.book.calls[id];
      Agrees(CallEvent(id, tracked.state, tracked.direction), Snapshot(s))
  {
    ViewsAreTheBook(s.book);
    var views := Views(s.book);
    var i :| 0 <= i < |views| && views[i].id == id;
    assert CallEntries.Shows(s.book, views[i]);
    assert views[i] in views;
  }

  lemma RingAgrees(s: State, id: CallId)
    requires Sided(s.book) && id in s.book.rang
    ensures Agrees(RingEvent(id), Snapshot(s))
  {
    ViewsAreTheBook(s.book);
  }

  lemma ReportGrows(s: State, handle: CallHandle, state: CallState)
    requires Even(s)
    ensures var t := CallStateArrived(s, handle, state);
      Grows(TraceOf(s), TraceOf(t)) && Current(|s.log|, t)
  {
    var (book, news) := Recorded(s.book, handle, state, Guess(s), false);
    if news {
      var t := Noted(s, Reported(handle.id, state.Ended?)).(book := book);
      CallAgrees(t, handle.id);
      var event := CallEvent(handle.id, state, book.calls[handle.id].direction);
      PublishGrows(t, event);
      if state.Ended? {
        EndGrows(t, Publish(t, event), handle.id);
      }
    }
  }

  // The dialog is over: one more state, after the two that reported it.
  lemma EndGrows(s: State, t: State, id: CallId)
    requires Grows(TraceOf(s), TraceOf(t)) && Current(|s.log|, t)
    ensures var u := PublishState(CallEnded(t, id).(book := Forgotten(t.book, id)));
      Grows(TraceOf(s), TraceOf(u)) && Current(|s.log|, u)
  {
    var ended := CallEnded(t, id).(book := Forgotten(t.book, id));
    assert TraceOf(ended) == TraceOf(t) && ended.own == t.own;
    StateGrows(ended);
    GrowsOn(TraceOf(s), TraceOf(t), TraceOf(PublishState(ended)));
  }

  lemma FinishGrows(s: State, i: nat)
    requires Numbered(s.media) && Even(s) && i < |s.media.sessions|
    ensures var t := Finish(s, i); Grows(TraceOf(s), TraceOf(t)) && Current(|s.log|, t)
  {
    var x := s.media.sessions[i];
    var t := Legs(s, s.media.sessions[..i] + s.media.sessions[i + 1..]);
    ClosedAgrees(t, x);
    PublishGrows(t, WebrtcEvent(x.id, x.call, CLOSED));
  }

  lemma HungUpGrows(s: State, call: CallId, next: Next)
    requires Even(s)
    ensures var t := HungUp(s, call, next); Grows(TraceOf(s), TraceOf(t)) && Current(|s.log|, t)
  {
    var t := Noted(s, Dropped(call)).(book := Forgotten(s.book, call));
    StateGrows(t);
    if next.Place? { ProceedLeaves(PublishState(t), next.rest); }
  }

  lemma OpenedGrows(s: State, actuator: ActuatorName, outcome: Outcome)
    requires Even(s)
    ensures var t := Opened(s, actuator, outcome);
      Grows(TraceOf(s), TraceOf(t)) && Current(|s.log|, t)
  {
    PublishGrows(s, OpenEvent(actuator, true));
    PublishGrows(s, OpenEvent(actuator, false));
  }

  lemma SharpenedGrows(s: State, handle: CallHandle, direction: Direction)
    requires Even(s)
    ensures var t := Sharpened(s, handle, direction);
      Grows(TraceOf(s), TraceOf(t)) && Current(|s.log|, t)
  {
    StateGrows(s.(book := Recorded(s.book, handle, Streaming, direction, true).0));
  }

  lemma ResumedGrows(s: State, task: Task, outcome: Outcome)
    requires Numbered(s.media) && Even(s)
    ensures var t := Resumed(s, task, outcome);
      Grows(TraceOf(s), TraceOf(t)) && Current(|s.log|, t)
  {
    match task
    case Inviting => if outcome.Returned? { SharpenedGrows(Uninvited(s), outcome.handle, OUTGOING); }
    case OnDemand(actuator) => OpenedGrows(Uninvited(s), actuator, outcome);
    case During(actuator) => OpenedGrows(s, actuator, outcome);
    case Answering(handle) => SharpenedGrows(s, handle, INCOMING);
    case HangingUp(call, next) => HungUpGrows(s, call, next);
    case Muting(muted) => StateGrows(s.(own := s.own.(micMuted := muted)));
    case Offering(id, call) =>
      LegsAgree(s, id, call);
      PublishGrows(s, LegEvent(s, id, call));
    case Grace(_) => assert TraceOf(Resumed(s, task, outcome)) == TraceOf(s);
    case Ending(_) => assert TraceOf(Resumed(s, task, outcome)) == TraceOf(s);
  }

  predicate Telling(a: Action) {
    Bookkeeping(a) || a.MediaChanged? || a.Publishes?
  }

  lemma OthersAreSilent(s: State, a: Action)
    requires Enabled(s, a) && !Telling(a)
    ensures TraceOf(Step(s, a)) == TraceOf(s)
  {
  }

  // Every step of the gateway adds whole blocks to the log, or nothing, and what it adds
  // shows the binding and the microphone as the step leaves them.
  lemma StepGrows(s: State, a: Action)
    requires Numbered(s.media) && Sided(s.book) && Even(s) && Enabled(s, a)
    ensures var t := Step(s, a); Grows(TraceOf(s), TraceOf(t)) && Current(|s.log|, t)
  {
    if Telling(a) {
      match a
      case Rings(call) =>
        var t := Noted(s, Rang(call)).(book := Marked(s.book, call));
        RingAgrees(t, call);
        PublishGrows(t, RingEvent(call));
      case Reports(handle, state) => ReportGrows(s, handle, state);
      case PlaceCall => ProceedLeaves(s, StreamingIds(s.book));
      case TornDown(id) => FinishGrows(s, ById(s.media.sessions, id));
      case MediaChanged(id) =>
        LegsAgree(s, id, 0);
        PublishGrows(s, LegEvent(s, id, 0));
      case Resume(task, outcome) =>
        ResumedGrows(s.(tasks := s.tasks - multiset{task}), task, outcome);
      case Publishes(registered, status, released) =>
        PublishGrows(s, RegistrationEvent(registered, status, released.None? || released.value));
      case ClearCalls => StateGrows(Noted(s, Cleared).(book := NO_CALLS));
    } else {
      OthersAreSilent(s, a);
    }
  }

  // ---- the legs stay numbered --------------------------------------------------

  lemma ClosingNumbered(s: State, i: nat, after: Then)
    requires Numbered(s.media) && i < |s.media.sessions|
    ensures Numbered(Closing(s, i, after).media)
  {
  }

  lemma CloseNumbered(s: State, id: nat)
    requires Numbered(s.media)
    ensures Numbered(CloseById(s, id).media)
  {
  }

  lemma OfferedNumbered(s: State, call: CallId)
    requires Numbered(s.media)
    ensures Numbered(NewLeg(s, call).media) && Numbered(Offered(s, call).media)
  {
  }

  lemma HangNumbered(s: State, call: CallId, next: Next, reaped: bool)
    requires Numbered(s.media)
    ensures Numbered(Hang(s, call, next, reaped).media)
  {
  }

  lemma {:induction false} ProceedNumbered(s: State, rest: seq<CallId>)
    requires Numbered(s.media)
    ensures Numbered(Proceed(s, rest).media)
    decreases |rest|
  {
    if rest != [] {
      HangNumbered(s, rest[0], Place(rest[1..]), false);
      ProceedNumbered(s, rest[1..]);
    }
  }

  lemma FinishNumbered(s: State, i: nat)
    requires Numbered(s.media) && i < |s.media.sessions|
    ensures Numbered(Finish(s, i).media)
  {
    assert Numbered(s.media.(sessions := s.media.sessions[..i] + s.media.sessions[i + 1..]));
  }

  lemma ResumedNumbered(s: State, task: Task, outcome: Outcome)
    requires Numbered(s.media)
    ensures Numbered(Resumed(s, task, outcome).media)
  {
    match task
    case HangingUp(call, next) =>
      var t := PublishState(Noted(s, Dropped(call)).(book := Forgotten(s.book, call)));
      if next.Place? { ProceedNumbered(t, next.rest); }
    case Grace(call) => HangNumbered(s, call, End, true);
    case Offering(id, _) => CloseNumbered(s, id);
    case Ending(id) => CloseNumbered(s, id);
    case _ => assert Resumed(s, task, outcome).media == s.media;
  }

  lemma NumberedKept(s: State, a: Action)
    requires Numbered(s.media) && Enabled(s, a)
    ensures Numbered(Step(s, a).media)
  {
    match a
    case Reports(handle, state) => assert Step(s, a).media == s.media;
    case PlaceCall => ProceedNumbered(s, StreamingIds(s.book));
    case Hangup(call) => HangNumbered(s, call, End, false);
    case Offer(named) =>
      if Picked(s, named).Ok? { OfferedNumbered(s, Picked(s, named).value); }
    case Cut(id) => ClosingNumbered(s, ById(s.media.sessions, id), Never);
    case TornDown(id) => FinishNumbered(s, ById(s.media.sessions, id));
    case Flows(id, flow) => FlowsNumbered(s, id, flow);
    case Resume(task, outcome) =>
      ResumedNumbered(s.(tasks := s.tasks - multiset{task}), task, outcome);
    case CloseLeg(id) => CloseNumbered(s, id);
    case _ => assert Step(s, a).media == s.media;
  }

  lemma FlowsNumbered(s: State, id: nat, flow: SessionState)
    requires Numbered(s.media) && Enabled(s, Flows(id, flow))
    ensures Numbered(Step(s, Flows(id, flow)).media)
  {
  }

  ghost predicate Kept(s: State) {
    True(s.book, s.past.reports) && Numbered(s.media) && Even(s)
  }

  lemma KeptOn(s: State, a: Action)
    requires Kept(s) && Enabled(s, a)
    ensures Kept(Step(s, a)) && Grows(TraceOf(s), TraceOf(Step(s, a)))
  {
    TrueKept(s, a);
    NumberedKept(s, a);
    StepGrows(s, a);
  }

  lemma {:induction false} GrowsThrough(s: State, run: seq<Action>)
    requires Kept(s) && Feasible(s, run)
    ensures Kept(Run(s, run)) && Grows(TraceOf(s), TraceOf(Run(s, run)))
    decreases |run|
  {
    if run != [] {
      var t := Step(s, run[0]);
      KeptOn(s, run[0]);
      GrowsThrough(t, run[1..]);
      GrowsOn(TraceOf(s), TraceOf(t), TraceOf(Run(s, run)));
    }
  }

  // Whatever rings, ends, opens, closes, is answered or is registered, and in whatever
  // order: a state shows the gateway as it was when it went out, and each event that is
  // not a state is followed at once by one, holding the snapshot of the instant the event
  // itself went out and showing what it said.
  lemma AStateFollowsEveryEvent(factory: bool, run: seq<Action>, k: nat)
    requires Feasible(Start(factory), run)
    ensures var t := TraceOf(Run(Start(factory), run));
      |t.log| == |t.instants| && (k < |t.log| ==> FollowedAt(t, k))
  {
    GrowsThrough(Start(factory), run);
  }

  lemma StepIsCurrent(s: State, a: Action, k: nat)
    requires Kept(s) && Enabled(s, a)
    requires |s.log| <= k < |Step(s, a).log| && Step(s, a).log[k].StateEvent?
    ensures var t := Step(s, a); var view := t.log[k].view;
      view.binding == t.own.binding && view.micMuted == t.own.micMuted
  {
    StepGrows(s, a);
    assert FollowedAt(TraceOf(Step(s, a)), k);
  }

  // And what a step publishes, in any run, holds the binding and the microphone as they
  // are at the end of that step.
  lemma WhatIsPublishedIsCurrent(factory: bool, run: seq<Action>, a: Action, k: nat)
    requires Feasible(Start(factory), run) && Enabled(Run(Start(factory), run), a)
    ensures var s := Run(Start(factory), run); var t := Step(s, a);
      |s.log| <= k < |t.log| && t.log[k].StateEvent? ==>
        t.log[k].view.binding == t.own.binding && t.log[k].view.micMuted == t.own.micMuted
  {
    GrowsThrough(Start(factory), run);
    var s := Run(Start(factory), run);
    if |s.log| <= k < |Step(s, a).log| && Step(s, a).log[k].StateEvent? {
      StepIsCurrent(s, a, k);
    }
  }
}
