// The service and its browser legs at loop-step granularity: the transport's callbacks,
// the commands suspended in an SDK call, the legs being torn down, the reap tasks asleep
// and the registration outcomes, all over one call book and one event log.
module GatewayModel {
  import opened Options
  import opened CallEntries

  // ---- data --------------------------------------------------------------------

  datatype SessionState = WAITING | OPEN | DEGRADED | CLOSED

  datatype ActuatorName = DOOR | GATE

  // What a coroutine does once the hang-up it is in has gone through.
  datatype Next =
    | End
    | Place(rest: seq<CallId>)     // `place_call`, with monitors still to drop

  // What runs, in the same step, when a leg's teardown ends.
  datatype Then =
    | Nothing
    | HangUp(next: Next)           // `hangup`, waiting for the leg to go first
    | Reoffer                      // `answer`, replacing this leg
    | Never                        // the teardown raised or was cancelled

  datatype Session = Session(id: nat, call: CallId, closed: bool, flow: SessionState, after: Then)

  // A coroutine suspended, by what it waits for.
  datatype Task =
    | Inviting                     // `place_call`, at `view_door`
    | OnDemand(actuator: ActuatorName)
    | During(actuator: ActuatorName)
    | Answering(handle: CallHandle)
    | HangingUp(call: CallId, next: Next)
    | Muting(muted: bool)
    | Offering(session: nat, call: CallId)
    | Grace(call: CallId)          // `_reap_after_grace`, asleep
    | Ending(session: nat)         // `call_ended`'s task, not begun

  datatype Outcome =
    | Returned(handle: CallHandle)  // the handle matters to `view_door` alone
    | Unacknowledged
    | Raised
    | Cancelled

  datatype SessionView = SessionView(id: nat, call: CallId, state: SessionState)

  // What the port answers without crossing the worker.
  datatype Binding = Binding(registered: bool, doorphone: Option<nat>)

  datatype StateView = StateView(
    binding: Binding, calls: seq<CallView>, micMuted: bool, sessions: seq<SessionView>)

  datatype Event =
    | StateEvent(view: StateView)
    | RingEvent(call: CallId)
    | CallEvent(id: CallId, state: CallState, direction: Direction)
    | OpenEvent(actuator: ActuatorName, acknowledged: bool)
    | RegistrationEvent(registered: bool, status: int, released: bool)
    | WebrtcEvent(session: nat, call: CallId, leg: SessionState)

  // History: what the transport said of dialogs, and what dropped them.
  datatype Report =
    | Reported(id: CallId, over: bool)
    | Rang(id: CallId)
    | Dropped(id: CallId)
    | Cleared

  // History: a hang-up submitted, how things stood at that instant, and whether a leg on
  // the dialog was already closing when it was asked for.
  datatype Submitted = Submitted(
    call: CallId, reaped: bool, entry: Option<Tracked>, closing: bool, bridged: bool, rang: bool)

  datatype Media = Media(sessions: seq<Session>, made: nat, factory: bool)
  datatype Own = Own(micMuted: bool, inviting: int, binding: Binding)
  datatype Past = Past(
    reports: seq<Report>,
    hangups: seq<Submitted>,
    asked: map<nat, bool>,         // by leg waited for: a leg was closing when asked
    instants: seq<StateView>)      // beside the log: the snapshot as each event went out

  datatype State = State(
    book: Book, media: Media, own: Own, tasks: multiset<Task>, log: seq<Event>, past: Past)

  datatype Action =
    | Rings(call: CallId)
    | Reports(handle: CallHandle, state: CallState)
    | PlaceCall
    | Answer(call: CallId)
    | Hangup(call: CallId)
    | SetMic(muted: bool)
    | Realign
    | Open(actuator: ActuatorName)
    | Offer(named: Option<CallId>)
    | CloseLeg(session: nat)       // a request, a dead connection, or the shutdown
    | Cut(session: nat)            // a teardown raises or is cancelled
    | TornDown(session: nat)
    | Flows(session: nat, flow: SessionState)
    | MediaChanged(session: nat)
    | Resume(task: Task, outcome: Outcome)
    | Publishes(registered: bool, status: int, released: Option<bool>)
    | BindingMoves(binding: Binding)
    | ClearCalls

  // Built, with or without a media tap.
  function Start(factory: bool): State {
    State(NO_CALLS, Media([], 0, factory), Own(true, 0, Binding(false, None)), multiset{}, [],
          Past([], [], map[], []))
  }

  // ---- the snapshot, and publishing --------------------------------------------

  function LegView(x: Session): SessionView {
    SessionView(x.id, x.call, if x.closed then CLOSED else x.flow)
  }

  function LegViews(media: Media): seq<SessionView> {
    seq(|media.sessions|, i requires 0 <= i < |media.sessions| => LegView(media.sessions[i]))
  }

  function Snapshot(s: State): StateView {
    StateView(s.own.binding, Views(s.book), s.own.micMuted, LegViews(s.media))
  }

  // `bus.publish`
  function Put(s: State, event: Event): State {
    s.(log := s.log + [event], past := s.past.(instants := s.past.instants + [Snapshot(s)]))
  }

  function PublishState(s: State): State { Put(s, StateEvent(Snapshot(s))) }

  function Publish(s: State, event: Event): State { PublishState(Put(s, event)) }

  // ---- the legs ----------------------------------------------------------------

  // `_for_call`: where the first leg on a dialog stands, or past the end.
  function ForCall(sessions: seq<Session>, call: CallId): (i: nat)
    ensures i <= |sessions| && (i < |sessions| ==> sessions[i].call == call)
    ensures forall k | 0 <= k < i :: sessions[k].call != call
  {
    if sessions == [] then 0
    else if sessions[0].call == call then 0
    else 1 + ForCall(sessions[1..], call)
  }

  function ById(sessions: seq<Session>, id: nat): (i: nat)
    ensures i <= |sessions| && (i < |sessions| ==> sessions[i].id == id)
    ensures forall k | 0 <= k < i :: sessions[k].id != id
  {
    if sessions == [] then 0
    else if sessions[0].id == id then 0
    else 1 + ById(sessions[1..], id)
  }

  predicate Bridged(s: State, call: CallId) { ForCall(s.media.sessions, call) < |s.media.sessions| }

  // Some leg on the dialog is on its way out.
  predicate LegClosing(sessions: seq<Session>, call: CallId) {
    exists i | 0 <= i < |sessions| :: sessions[i].call == call && sessions[i].closed
  }

  function Legs(s: State, sessions: seq<Session>): State {
    s.(media := s.media.(sessions := sessions))
  }

  // `session.aclose`, up to its first await.
  function Closing(s: State, i: nat, after: Then): State
    requires i < |s.media.sessions|
  {
    Legs(s, s.media.sessions[i := s.media.sessions[i].(closed := true, after := after)])
  }

  // `aclose` by somebody with nothing to do afterwards; a second one returns at once.
  function CloseById(s: State, id: nat): State {
    var i := ById(s.media.sessions, id);
    if i < |s.media.sessions| && !s.media.sessions[i].closed then Closing(s, i, Nothing) else s
  }

  // ---- hang-ups ----------------------------------------------------------------

  function Entry(b: Book, call: CallId): Option<Tracked> {
    if call in b.calls then Some(b.calls[call]) else None
  }

  // `self._port.hangup(...)`: submitted to the worker, and awaited.
  function Submit(s: State, call: CallId, next: Next, reaped: bool, closing: bool): State {
    s.(tasks := s.tasks + multiset{HangingUp(call, next)},
       past := s.past.(hangups := s.past.hangups
         + [Submitted(call, reaped, Entry(s.book, call), closing,
                      Bridged(s, call), call in s.book.rang)]))
  }

  // `hangup` on a dialog that is in the book.
  function Hang(s: State, call: CallId, next: Next, reaped: bool): State {
    var i, closing := ForCall(s.media.sessions, call), LegClosing(s.media.sessions, call);
    if i < |s.media.sessions| && !s.media.sessions[i].closed then
      Closing(s, i, HangUp(next)).(past :=
        s.past.(asked := s.past.asked[s.media.sessions[i].id := closing]))
    else Submit(s, call, next, reaped, closing)
  }

  // `_hangup_monitors` from where it stands, then the INVITE.
  function Proceed(s: State, rest: seq<CallId>): State {
    if rest == [] then
      s.(own := s.own.(inviting := s.own.inviting + 1), tasks := s.tasks + multiset{Inviting})
    else if rest[0] in s.book.calls && s.book.calls[rest[0]].direction.OUTGOING? then
      Hang(s, rest[0], Place(rest[1..]), false)
    else Proceed(s, rest[1..])
  }

  function Go(s: State, next: Next): State {
    match next
    case End => s
    case Place(rest) => Proceed(s, rest)
  }

  // ---- the callbacks -----------------------------------------------------------

  function Noted(s: State, report: Report): State {
    s.(past := s.past.(reports := s.past.reports + [report]))
  }

  function RingArrived(s: State, call: CallId): State {
    Publish(Noted(s, Rang(call)).(book := Marked(s.book, call)), RingEvent(call))
  }

  function Guess(s: State): Direction { if s.own.inviting != 0 then OUTGOING else INCOMING }

  // `call_ended`: a task that will close the leg.
  function CallEnded(s: State, call: CallId): State {
    var i := ForCall(s.media.sessions, call);
    if i < |s.media.sessions| then s.(tasks := s.tasks + multiset{Ending(s.media.sessions[i].id)}) else s
  }

  function CallStateArrived(s: State, handle: CallHandle, state: CallState): State {
    var (book, news) := Recorded(s.book, handle, state, Guess(s), false);
    var t := Noted(s, Reported(handle.id, state.Ended?)).(book := book);
    if !news then t
    else
      var u := Publish(t, CallEvent(handle.id, state, book.calls[handle.id].direction));
      if !state.Ended? then u
      else PublishState(CallEnded(u, handle.id).(book := Forgotten(book, handle.id)))
  }

  // ---- offers ------------------------------------------------------------------

  datatype OfferError = MediaUnavailable | UnknownCall | NoStreamingCall

  // `_pick`: without an id, the newest dialog with media up.
  function Pick(b: Book, call: Option<CallId>): Result<CallId, OfferError> {
    if call.Some? then
      if call.value !in b.calls then Err(UnknownCall)
      else if !b.calls[call.value].state.Streaming? then Err(NoStreamingCall)
      else Ok(call.value)
    else
      var ids := StreamingIds(b);
      if ids == [] then Err(NoStreamingCall) else Ok(Last(ids))
  }

  // The dialog an offer is for, or the first thing wrong with it.
  function Picked(s: State, named: Option<CallId>): Result<CallId, OfferError> {
    if !s.media.factory then Err(MediaUnavailable) else Pick(s.book, named)
  }

  function NewLeg(s: State, call: CallId): State {
    var id := s.media.made + 1;
    s.(media := s.media.(sessions := s.media.sessions + [Session(id, call, false, WAITING, Nothing)],
                         made := id),
       tasks := s.tasks + multiset{Offering(id, call)})
  }

  function Offered(s: State, call: CallId): State {
    var i := ForCall(s.media.sessions, call);
    if i < |s.media.sessions| && !s.media.sessions[i].closed then Closing(s, i, Reoffer)
    else NewLeg(s, call)
  }

  // What is said of a leg: one that has left the book had been closed first.
  function LegEvent(s: State, id: nat, call: CallId): Event {
    var i := ById(s.media.sessions, id);
    if i < |s.media.sessions|
    then WebrtcEvent(id, s.media.sessions[i].call, LegView(s.media.sessions[i]).state)
    else WebrtcEvent(id, call, CLOSED)
  }

  // ---- a leg is gone -----------------------------------------------------------

  predicate Orphaned(s: State, call: CallId) {
    && !Bridged(s, call) && call in s.book.calls
    && s.book.calls[call].state.Streaming? && s.book.calls[call].direction.OUTGOING?
  }

  // `_session_closed`, on a leg already out of the book.
  function SessionClosed(s: State, x: Session): State {
    var t := Publish(s, WebrtcEvent(x.id, x.call, CLOSED));
    if Orphaned(t, x.call) then t.(tasks := t.tasks + multiset{Grace(x.call)}) else t
  }

  function Finish(s: State, i: nat): State
    requires i < |s.media.sessions|
  {
    var x := s.media.sessions[i];
    var t := SessionClosed(Legs(s, s.media.sessions[..i] + s.media.sessions[i + 1..]), x);
    match x.after
    case HangUp(next) =>
      Submit(t, x.call, next, false, x.id in s.past.asked && s.past.asked[x.id])
    case Reoffer => NewLeg(t, x.call)
    case _ => t
  }

  // ---- what a suspended coroutine does next ------------------------------------

  function Uninvited(s: State): State { s.(own := s.own.(inviting := s.own.inviting - 1)) }

  function Opened(s: State, actuator: ActuatorName, outcome: Outcome): State {
    match outcome
    case Returned(_) => Publish(s, OpenEvent(actuator, true))
    case Unacknowledged => Publish(s, OpenEvent(actuator, false))
    case _ => s
  }

  function Sharpened(s: State, handle: CallHandle, direction: Direction): State {
    PublishState(s.(book := Recorded(s.book, handle, Streaming, direction, true).0))
  }

  function HungUp(s: State, call: CallId, next: Next): State {
    Go(PublishState(Noted(s, Dropped(call)).(book := Forgotten(s.book, call))), next)
  }

  function Resumed(s: State, task: Task, outcome: Outcome): State {
    match task
    case Inviting =>
      var t := Uninvited(s);
      if outcome.Returned? then Sharpened(t, outcome.handle, OUTGOING) else t
    case OnDemand(actuator) => Opened(Uninvited(s), actuator, outcome)
    case During(actuator) => Opened(s, actuator, outcome)
    case Answering(handle) => if outcome.Returned? then Sharpened(s, handle, INCOMING) else s
    case HangingUp(call, next) => if outcome.Returned? then HungUp(s, call, next) else s
    case Muting(muted) =>
      if outcome.Returned? then PublishState(s.(own := s.own.(micMuted := muted))) else s
    case Offering(id, call) =>
      (match outcome
       case Returned(_) => Publish(s, LegEvent(s, id, call))
       case Cancelled => s
       case _ => CloseById(s, id))
    case Grace(call) =>
      if outcome.Returned? && Orphaned(s, call) then Hang(s, call, End, true) else s
    case Ending(id) => if outcome.Returned? then CloseById(s, id) else s
  }

  // ---- steps -------------------------------------------------------------------

  predicate IsClosing(s: State, id: nat) {
    var i := ById(s.media.sessions, id);
    i < |s.media.sessions| && s.media.sessions[i].closed && !s.media.sessions[i].after.Never?
  }

  predicate IsUp(s: State, id: nat) {
    var i := ById(s.media.sessions, id);
    i < |s.media.sessions| && !s.media.sessions[i].closed
  }

  predicate Enabled(s: State, a: Action) {
    match a
    case Cut(id) => IsClosing(s, id)
    case TornDown(id) => IsClosing(s, id)
    case Flows(id, flow) => IsUp(s, id) && !flow.CLOSED?
    case MediaChanged(id) => IsUp(s, id)
    case Resume(task, outcome) => task in s.tasks
    case _ => true
  }

  function Suspended(s: State, task: Task): State { s.(tasks := s.tasks + multiset{task}) }

  function Step(s: State, a: Action): State
    requires Enabled(s, a)
  {
    match a
    case Rings(call) => RingArrived(s, call)
    case Reports(handle, state) => CallStateArrived(s, handle, state)
    case PlaceCall => Proceed(s, StreamingIds(s.book))
    case Answer(call) =>
      if call in s.book.calls then Suspended(s, Answering(s.book.calls[call].handle)) else s
    case Hangup(call) => if call in s.book.calls then Hang(s, call, End, false) else s
    case SetMic(muted) => Suspended(s, Muting(muted))
    case Realign => Suspended(s, Muting(s.own.micMuted))
    case Open(actuator) =>
      if StreamingIds(s.book) != [] then Suspended(s, During(actuator))
      else Suspended(s.(own := s.own.(inviting := s.own.inviting + 1)), OnDemand(actuator))
    case Offer(call) =>
      var picked := Picked(s, call);
      if picked.Ok? then Offered(s, picked.value) else s
    case CloseLeg(id) => CloseById(s, id)
    case Cut(id) => Closing(s, ById(s.media.sessions, id), Never)
    case TornDown(id) => Finish(s, ById(s.media.sessions, id))
    case Flows(id, flow) =>
      var i := ById(s.media.sessions, id);
      Legs(s, s.media.sessions[i := s.media.sessions[i].(flow := flow)])
    case MediaChanged(id) => Publish(s, LegEvent(s, id, 0))
    case Resume(task, outcome) => Resumed(s.(tasks := s.tasks - multiset{task}), task, outcome)
    case Publishes(registered, status, released) =>
      Publish(s, RegistrationEvent(registered, status, released.None? || released.value))
    case BindingMoves(binding) => s.(own := s.own.(binding := binding))
    case ClearCalls => PublishState(Noted(s, Cleared).(book := NO_CALLS))
  }

  predicate Feasible(s: State, run: seq<Action>)
    decreases |run|
  {
    run == [] || (Enabled(s, run[0]) && Feasible(Step(s, run[0]), run[1..]))
  }

  function Run(s: State, run: seq<Action>): State
    requires Feasible(s, run)
    decreases |run|
  {
    if run == [] then s else Run(Step(s, run[0]), run[1..])
  }
}
