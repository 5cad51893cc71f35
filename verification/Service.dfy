// The service and its browser legs as objects, cut at their awaits. Each method changes
// the fields the source changes; what it changes is proved to be the step of
// `GatewayModel` it stands for. What is suspended in the event loop is the loop's own
// business, so the tasks stay in the model's state.
module Service {
  import opened Options
  import opened CallEntries
  import opened GatewayModel
  import opened Calls
  import opened Coroutines

  class MediaSessions {
    const calls: CallBook
    const factory: bool           // there is a media tap to build legs on
    var sessions: seq<Session>
    var made: nat

    ghost predicate Is(media: Media)
      reads this
    {
      sessions == media.sessions && made == media.made && factory == media.factory
    }

    constructor (calls: CallBook, factory: bool)
      ensures this.calls == calls && this.factory == factory && sessions == [] && made == 0
    {
      this.calls, this.factory, sessions, made := calls, factory, [], 0;
    }

    method Views() returns (views: seq<SessionView>)
      ensures |views| == |sessions|
      ensures forall i | 0 <= i < |sessions| :: views[i] == LegView(sessions[i])
    {
      views := [];
      for i := 0 to |sessions|
        invariant |views| == i && forall k | 0 <= k < i :: views[k] == LegView(sessions[k])
      {
        views := views + [LegView(sessions[i])];
      }
    }

    // The first leg on a dialog, in the order they were made.
    method For(call: CallId) returns (i: nat)
      ensures i == ForCall(sessions, call)
    {
      i := 0;
      while i < |sessions| && sessions[i].call != call
        invariant 0 <= i <= |sessions|
        invariant i + ForCall(sessions[i..], call) == ForCall(sessions, call)
      {
        assert sessions[i..][1..] == sessions[i + 1..];
        i := i + 1;
      }
    }

    method Find(id: nat) returns (i: nat)
      ensures i == ById(sessions, id)
    {
      i := 0;
      while i < |sessions| && sessions[i].id != id
        invariant 0 <= i <= |sessions|
        invariant i + ById(sessions[i..], id) == ById(sessions, id)
      {
        assert sessions[i..][1..] == sessions[i + 1..];
        i := i + 1;
      }
    }

    // What is said of a leg; one that has left the book had been closed first.
    method Said(id: nat, call: CallId) returns (event: Event)
      ensures event == var i := ById(sessions, id);
        if i < |sessions| then WebrtcEvent(id, sessions[i].call, LegView(sessions[i]).state)
        else WebrtcEvent(id, call, CLOSED)
    {
      var i := Find(id);
      event := if i < |sessions| then WebrtcEvent(id, sessions[i].call, LegView(sessions[i]).state)
               else WebrtcEvent(id, call, CLOSED);
    }

    // A leg's `aclose` up to its first await; one already closed is left alone.
    method Close(i: nat, after: Then) returns (begun: bool)
      requires i < |sessions|
      modifies this`sessions
      ensures begun == !old(sessions)[i].closed
      ensures sessions == if begun then old(sessions)[i := old(sessions)[i].(closed := true, after := after)]
                          else old(sessions)
    {
      begun := !sessions[i].closed;
      if begun {
        sessions := sessions[i := sessions[i].(closed := true, after := after)];
      }
    }

    // `_pick`, and the refusal when there is no tap to build legs on.
    method PickCall(named: Option<CallId>) returns (picked: Result<CallId, OfferError>)
      requires calls.Valid()
      ensures picked == if factory then Pick(calls.Contents(), named) else Err(MediaUnavailable)
      ensures picked == Err(MediaUnavailable) <==> !factory
      ensures picked == Err(UnknownCall) <==> factory && named.Some? && named.value !in calls.calls
      ensures picked.Ok? ==> MediaUp(calls.Contents(), picked.value)
      ensures picked.Ok? && named.Some? ==> picked.value == named.value
      ensures picked.Ok? && named.None? ==> Newest(calls.Contents(), picked.value, |calls.order|)
      ensures picked == Err(NoStreamingCall) ==>
        if named.Some? then !MediaUp(calls.Contents(), named.value)
        else forall id :: !MediaUp(calls.Contents(), id)
    {
      StreamingIsTheBook(calls.Contents());
      if !factory {
        return Err(MediaUnavailable);
      }
      match named
      case Some(call) =>
        var tracked := calls.Require(call);
        match tracked {
          case Err(_) => picked := Err(UnknownCall);
          case Ok(entry) => picked := if entry.state.Streaming? then Ok(call) else Err(NoStreamingCall);
        }
      case None =>
        var streaming := calls.Streaming();
        EnteredLast(calls.Contents(), StreamingIds(calls.Contents()));
        picked := if streaming == [] then Err(NoStreamingCall)
                  else Ok(streaming[|streaming| - 1].handle.id);
    }

    // A leg on a dialog, which its own answer is about to be asked of.
    method Add(call: CallId) returns (id: nat)
      modifies this
      ensures id == made == old(made) + 1
      ensures sessions == old(sessions) + [Session(id, call, false, WAITING, Nothing)]
    {
      made := made + 1;
      id := made;
      sessions := sessions + [Session(id, call, false, WAITING, Nothing)];
    }

    // The only way out of `sessions`.
    method Remove(i: nat) returns (gone: Session)
      requires i < |sessions|
      modifies this`sessions
      ensures gone == old(sessions)[i] && sessions == old(sessions)[..i] + old(sessions)[i + 1..]
    {
      gone := sessions[i];
      sessions := sessions[..i] + sessions[i + 1..];
    }

    // `_orphaned_monitor`
    method OrphanedMonitor(call: CallId) returns (orphaned: bool)
      requires calls.Valid()
      ensures orphaned <==>
        && ForCall(sessions, call) == |sessions| && call in calls.calls
        && calls.calls[call].state.Streaming? && calls.calls[call].direction.OUTGOING?
    {
      var i := For(call);
      if i < |sessions| {
        return false;
      }
      var tracked := calls.Find(call);
      orphaned := tracked.Some? && tracked.value.state.Streaming? && tracked.value.direction.OUTGOING?;
    }
  }

  lemma EnteredLast(b: Book, ids: seq<CallId>)
    requires forall id | id in ids :: id in b.calls
    ensures |Entered(b, ids)| == |ids|
    ensures ids != [] ==> Entered(b, ids)[|ids| - 1].handle.id == Last(ids)
    ensures forall i | 0 <= i < |ids| :: Entered(b, ids)[i].handle.id == ids[i]
  {
    if ids != [] { EnteredLast(b, Init(ids)); }
  }

  lemma ResumesHungUp(s: State, call: CallId, next: Next, handle: CallHandle)
    requires HangingUp(call, next) in s.tasks
    ensures Step(s, Resume(HangingUp(call, next), Returned(handle)))
         == HungUp(s.(tasks := s.tasks - multiset{HangingUp(call, next)}), call, next)
  {
  }

  lemma ResumesOnDemand(s: State, actuator: ActuatorName, outcome: Outcome)
    requires OnDemand(actuator) in s.tasks
    ensures Step(s, Resume(OnDemand(actuator), outcome))
         == Opened(Uninvited(s.(tasks := s.tasks - multiset{OnDemand(actuator)})), actuator, outcome)
  {
  }

  lemma ResumesGrace(s: State, call: CallId, handle: CallHandle)
    requires Grace(call) in s.tasks
    ensures var t := s.(tasks := s.tasks - multiset{Grace(call)});
      Step(s, Resume(Grace(call), Returned(handle))) == if Orphaned(t, call) then Hang(t, call, End, true) else t
  {
  }

  class DoorphoneService {
    const calls: CallBook
    const media: MediaSessions
    var micMuted: bool
    var inviting: int
    var binding: Binding          // what the port reads of the current client
    var log: seq<Event>           // what the bus was handed
    ghost var s: State

    ghost predicate Valid()
      reads this, calls, media
    {
      && media.calls == calls && calls.Valid() && s.book == calls.Contents()
      && media.Is(s.media) && s.own == Own(micMuted, inviting, binding) && s.log == log
    }

    constructor (factory: bool)
      ensures Valid() && s == Start(factory) && fresh(calls) && fresh(media)
    {
      var book := new CallBook();
      calls := book;
      media := new MediaSessions(book, factory);
      micMuted, inviting, binding, log := true, 0, Binding(false, None), [];
      s := Start(factory);
    }

    // ---- publishing ------------------------------------------------------------

    method StateNow() returns (view: StateView)
      requires Valid()
      ensures view == Snapshot(s)
    {
      var shown := calls.Shown();
      var legs := media.Views();
      assert legs == LegViews(s.media);
      view := StateView(binding, shown, micMuted, legs);
    }

    method PublishState()
      requires Valid()
      modifies this`log, this`s
      ensures Valid() && s == GatewayModel.PublishState(old(s))
    {
      var view := StateNow();
      log := log + [StateEvent(view)];
      s := GatewayModel.PublishState(s);
    }

    method Publish(event: Event)
      requires Valid()
      modifies this`log, this`s
      ensures Valid() && s == GatewayModel.Publish(old(s), event)
    {
      log := log + [event];
      s := Put(s, event);
      PublishState();
    }

    method RegistrationOutcome(registered: bool, status: int, released: Option<bool>)
      requires Valid()
      modifies this`log, this`s
      ensures Valid() && s == Step(old(s), Publishes(registered, status, released))
    {
      var release := if released.Some? then released.value else true;
      Publish(RegistrationEvent(registered, status, release));
    }

    // ---- the callbacks ---------------------------------------------------------

    method RingArrived(call: CallId)
      requires Valid()
      modifies this, calls
      ensures Valid() && s == Step(old(s), Rings(call))
    {
      calls.MarkIncoming(call);
      s := Noted(s, Rang(call)).(book := Marked(s.book, call));
      Publish(RingEvent(call));
    }

    method CallStateArrived(handle: CallHandle, state: CallState)
      requires Valid()
      modifies this, calls
      ensures Valid() && s == Step(old(s), Reports(handle, state))
    {
      var side := if inviting != 0 then OUTGOING else INCOMING;
      var news := calls.Record(handle, state, side, false);
      s := Noted(s, Reported(handle.id, state.Ended?)).(book := calls.Contents());
      if news {
        NewsArrived(handle.id, state, side);
      }
    }

    // What the book now says of the dialog is told, and an ended one goes.
    method NewsArrived(call: CallId, state: CallState, side: Direction)
      requires Valid()
      modifies this`log, this`s, calls
      ensures Valid()
      ensures var was := old(s);
        var told := GatewayModel.Publish(was, CallEvent(call, state,
          if call in was.book.calls then was.book.calls[call].direction else side));
        s == if !state.Ended? then told
             else GatewayModel.PublishState(CallEnded(told, call).(book := Forgotten(was.book, call)))
    {
      var tracked := calls.Find(call);
      var direction := if tracked.Some? then tracked.value.direction else side;
      Publish(CallEvent(call, state, direction));
      if state.Ended? {
        CallIsOver(call);
      }
    }

    // `call_ended`, the entry dropped, and one more state.
    method CallIsOver(call: CallId)
      requires Valid()
      modifies this`log, this`s, calls
      ensures Valid() && s == GatewayModel.PublishState(
        CallEnded(old(s), call).(book := Forgotten(old(s).book, call)))
    {
      calls.Forget(call);
      s := CallEnded(s, call).(book := calls.Contents());
      PublishState();
    }

    // ---- hanging up ------------------------------------------------------------

    // `hangup` on a dialog in the book: it waits for the leg, or goes straight on.
    method HangUpTracked(call: CallId, ghost next: Next, after: Then, ghost reaped: bool) returns (submitted: bool)
      requires Valid() && call in calls.calls && after == HangUp(next)
      modifies this`s, media`sessions
      ensures Valid() && s == Hang(old(s), call, next, reaped)
      ensures submitted <==> |s.past.hangups| > |old(s).past.hangups|
    {
      var i := media.For(call);
      var begun := false;
      if i < |media.sessions| {
        begun := media.Close(i, after);
      }
      s := Hang(s, call, next, reaped);
      submitted := !begun;
    }

    method HangUpCall(call: CallId)
      requires Valid()
      modifies this`s, media`sessions
      ensures Valid() && s == Step(old(s), Hangup(call))
    {
      var tracked := calls.Find(call);
      if tracked.None? {
        return;
      }
      var submitted := HangUpTracked(call, End, HangUp(End), false);
    }

    // The entry of a dialog we hung up goes, and the state is told.
    method CallIsDropped(call: CallId)
      requires Valid()
      modifies this`log, this`s, calls
      ensures Valid() && s == GatewayModel.PublishState(
        Noted(old(s), Dropped(call)).(book := Forgotten(old(s).book, call)))
    {
      calls.Forget(call);
      s := Noted(s, Dropped(call)).(book := calls.Contents());
      PublishState();
    }

    // The port's `hangup` returned: the dialog goes, and whoever waited goes on.
    method HangupReturned(call: CallId, next: Next, handle: CallHandle)
      requires Valid() && HangingUp(call, next) in s.tasks
      modifies this, calls, media`sessions
      ensures Valid() && s == Step(old(s), Resume(HangingUp(call, next), Returned(handle)))
    {
      ResumesHungUp(s, call, next, handle);
      s := s.(tasks := s.tasks - multiset{HangingUp(call, next)});
      CallIsDropped(call);
      match next
      case End =>
      case Place(rest) => HangupMonitors(rest);
    }

    // `_hangup_monitors` from where it stands; with none left, the INVITE.
    method HangupMonitors(rest: seq<CallId>)
      requires Valid()
      modifies this`s, this`inviting, media`sessions
      ensures Valid() && s == Proceed(old(s), rest)
    {
      var i := 0;
      while i < |rest|
        invariant 0 <= i <= |rest| && Valid() && s == old(s) && inviting == old(inviting)
        invariant Proceed(s, rest[i..]) == Proceed(s, rest)
      {
        var tracked := calls.Find(rest[i]);
        assert rest[i..][1..] == rest[i + 1..];
        if tracked.Some? && tracked.value.direction.OUTGOING? {
          var submitted :=
            HangUpTracked(rest[i], Place(rest[i + 1..]), HangUp(Place(rest[i + 1..])), false);
          return;
        }
        i := i + 1;
      }
      inviting := inviting + 1;
      s := Proceed(s, []);
    }

    // The dialogs with media up at this instant, and the handles to act on them.
    method StreamingNow() returns (ids: seq<CallId>, handles: seq<CallHandle>)
      requires Valid()
      ensures ids == StreamingIds(s.book) && |handles| == |ids|
      ensures forall k | 0 <= k < |ids| :: handles[k].id == ids[k]
    {
      var streaming := calls.Streaming();
      ghost var all := StreamingIds(s.book);
      EnteredLast(s.book, all);
      ids, handles := NamedAndHeld(streaming, all);
      assert ids == all;
    }

    method NamedAndHeld(entries: seq<Tracked>, ghost all: seq<CallId>)
      returns (ids: seq<CallId>, handles: seq<CallHandle>)
      requires |entries| == |all| && forall k | 0 <= k < |all| :: entries[k].handle.id == all[k]
      ensures |ids| == |handles| == |all|
      ensures forall k | 0 <= k < |all| :: handles[k].id == ids[k] == all[k]
    {
      ids, handles := [], [];
      for i := 0 to |entries|
        invariant |ids| == |handles| == i
        invariant forall k | 0 <= k < i :: handles[k].id == ids[k] == all[k]
      {
        ids := ids + [entries[i].handle.id];
        handles := handles + [entries[i].handle];
      }
    }

    method PlaceACall()
      requires Valid()
      modifies this`s, this`inviting, media`sessions
      ensures Valid() && s == Step(old(s), PlaceCall)
    {
      var ids, handles := StreamingNow();
      HangupMonitors(ids);
    }

    // `view_door` came back, whatever it came back with.
    method Invited(outcome: Outcome)
      requires Valid() && Inviting in s.tasks
      modifies this, calls
      ensures Valid() && s == Step(old(s), Resume(Inviting, outcome)) && inviting == old(inviting) - 1
    {
      inviting := inviting - 1;
      s := Uninvited(s.(tasks := s.tasks - multiset{Inviting}));
      if outcome.Returned? {
        Sharpen(outcome.handle, OUTGOING);
      }
    }

    method Sharpen(handle: CallHandle, side: Direction)
      requires Valid()
      modifies this`log, this`s, calls
      ensures Valid() && s == Sharpened(old(s), handle, side)
    {
      var news := calls.Record(handle, Streaming, side, true);
      s := s.(book := calls.Contents());
      PublishState();
    }

    // ---- answering, the microphone, opening ------------------------------------

    // The handle to answer, or that there is no such dialog.
    method AnswerCall(call: CallId) returns (r: Result<CallHandle, UnknownCallError>)
      requires Valid()
      modifies this`s
      ensures Valid() && s == Step(old(s), Answer(call))
      ensures r.Ok? <==> call in calls.calls
      ensures r.Ok? ==> r.value == calls.calls[call].handle
    {
      r := calls.Handle(call);
      s := Step(s, Answer(call));
    }

    method Answered(handle: CallHandle, outcome: Outcome)
      requires Valid() && Answering(handle) in s.tasks
      modifies this`log, this`s, calls
      ensures Valid() && s == Step(old(s), Resume(Answering(handle), outcome))
    {
      s := s.(tasks := s.tasks - multiset{Answering(handle)});
      if outcome.Returned? {
        Sharpen(handle, INCOMING);
      }
    }

    // A page asks, or (`realign`) the supervisor has a fresh client: what is submitted.
    method SetMicMuted(muted: bool)
      requires Valid()
      modifies this`s
      ensures Valid() && s == Step(old(s), SetMic(muted))
      ensures s == old(s).(tasks := old(s).tasks + multiset{Muting(muted)})
    {
      s := Step(s, SetMic(muted));
    }

    method RealignMic()
      requires Valid()
      modifies this`s
      ensures Valid() && s == Step(old(s), Realign)
      ensures s.tasks == old(s).tasks + multiset{Muting(micMuted)}
    {
      SetMicMuted(micMuted);
    }

    method MicSet(muted: bool, outcome: Outcome)
      requires Valid() && Muting(muted) in s.tasks
      modifies this`log, this`s, this`micMuted
      ensures Valid() && s == Step(old(s), Resume(Muting(muted), outcome))
      ensures micMuted == if outcome.Returned? then muted else old(micMuted)
    {
      s := s.(tasks := s.tasks - multiset{Muting(muted)});
      if outcome.Returned? {
        micMuted := muted;
        s := s.(own := s.own.(micMuted := muted));
        PublishState();
      }
    }

    // Inside the oldest live dialog if one streams, and by a call of its own otherwise.
    method OpenDoor(actuator: ActuatorName) returns (inside: Option<CallHandle>)
      requires Valid()
      modifies this`s, this`inviting
      ensures Valid() && s == Step(old(s), Open(actuator))
      ensures inside.Some? <==> StreamingIds(s.book) != []
      ensures inside.Some? ==> inside.value.id == StreamingIds(s.book)[0]
    {
      var ids, handles := StreamingNow();
      if handles != [] {
        inside := Some(handles[0]);
      } else {
        inside := None;
        inviting := inviting + 1;
      }
      s := Step(s, Open(actuator));
    }

    method OpenedOnDemand(actuator: ActuatorName, outcome: Outcome)
      requires Valid() && OnDemand(actuator) in s.tasks
      modifies this`log, this`s, this`inviting
      ensures Valid() && s == Step(old(s), Resume(OnDemand(actuator), outcome))
      ensures inviting == old(inviting) - 1
      ensures outcome.Raised? || outcome.Cancelled? ==> log == old(log)
      ensures outcome.Returned? || outcome.Unacknowledged? ==>
        && |log| == |old(log)| + 2 && log[..|old(log)|] == old(log)
        && log[|old(log)|] == OpenEvent(actuator, outcome.Returned?) && log[|old(log)| + 1].StateEvent?
    {
      ResumesOnDemand(s, actuator, outcome);
      inviting := inviting - 1;
      s := Uninvited(s.(tasks := s.tasks - multiset{OnDemand(actuator)}));
      OpenEnded(actuator, outcome);
    }

    // Opened, not acknowledged, or raised to whoever asked.
    method OpenEnded(actuator: ActuatorName, outcome: Outcome)
      requires Valid()
      modifies this`log, this`s
      ensures Valid() && s == Opened(old(s), actuator, outcome) && inviting == old(inviting)
      ensures outcome.Raised? || outcome.Cancelled? ==> log == old(log)
      ensures outcome.Returned? || outcome.Unacknowledged? ==>
        && |log| == |old(log)| + 2 && log[..|old(log)|] == old(log)
        && log[|old(log)|] == OpenEvent(actuator, outcome.Returned?) && log[|old(log)| + 1].StateEvent?
    {
      match outcome
      case Returned(_) => Publish(OpenEvent(actuator, true));
      case Unacknowledged => Publish(OpenEvent(actuator, false));
      case _ =>
    }

    method OpenedDuring(actuator: ActuatorName, outcome: Outcome)
      requires Valid() && During(actuator) in s.tasks
      modifies this`log, this`s
      ensures Valid() && s == Step(old(s), Resume(During(actuator), outcome))
      ensures outcome.Raised? || outcome.Cancelled? ==> log == old(log)
      ensures outcome.Returned? || outcome.Unacknowledged? ==>
        && |log| == |old(log)| + 2 && log[..|old(log)|] == old(log)
        && log[|old(log)|] == OpenEvent(actuator, outcome.Returned?) && log[|old(log)| + 1].StateEvent?
    {
      s := s.(tasks := s.tasks - multiset{During(actuator)});
      OpenEnded(actuator, outcome);
    }

    // ---- the legs --------------------------------------------------------------

    // Somebody with nothing to do afterwards closes a leg, if it is there and not closing.
    method CloseSession(id: nat)
      requires Valid()
      modifies this`s, media`sessions
      ensures Valid() && s == CloseById(old(s), id)
    {
      var i := media.Find(id);
      if i < |media.sessions| {
        var begun := media.Close(i, Nothing);
      }
      s := CloseById(s, id);
    }

    // A leg's picture arrived or went while its call stayed.
    method LegMoved(id: nat)
      requires Valid() && IsUp(s, id)
      modifies this`log, this`s
      ensures Valid() && s == Step(old(s), MediaChanged(id))
    {
      LegTold(id, 0);
    }

    // The leg's own answer came back: it is told, or closed when it could not be given.
    method LegAnswered(id: nat, call: CallId, outcome: Outcome)
      requires Valid() && Offering(id, call) in s.tasks
      modifies this`log, this`s, media`sessions
      ensures Valid()
      ensures s == Resumed(old(s).(tasks := old(s).tasks - multiset{Offering(id, call)}),
                           Offering(id, call), outcome)
    {
      s := s.(tasks := s.tasks - multiset{Offering(id, call)});
      if outcome.Returned? {
        LegTold(id, call);
      } else if !outcome.Cancelled? {
        CloseSession(id);
      }
    }

    method LegTold(id: nat, call: CallId)
      requires Valid()
      modifies this`log, this`s
      ensures Valid() && s == GatewayModel.Publish(old(s), LegEvent(old(s), id, call))
    {
      var event := media.Said(id, call);
      Publish(event);
    }

    // An offer: it replaces the leg on its dialog, or makes one at once.
    method OfferLeg(named: Option<CallId>) returns (r: Result<CallId, OfferError>)
      requires Valid()
      modifies this`s, media
      ensures Valid() && r == Picked(old(s), named)
      ensures s == if r.Ok? then Offered(old(s), r.value) else old(s)
    {
      r := media.PickCall(named);
      if r.Ok? {
        Replace(r.value);
      }
    }

    method Replace(call: CallId)
      requires Valid()
      modifies this`s, media
      ensures Valid() && s == Offered(old(s), call)
    {
      var i := media.For(call);
      var begun := false;
      if i < |media.sessions| {
        begun := media.Close(i, Reoffer);
      }
      s := Offered(s, call);
      if !begun {
        var id := media.Add(call);
      }
    }

    // `_session_closed`: the leg leaves the book, the world is told, and a monitor left
    // without a leg is given its grace.
    method LegClosed(i: nat) returns (gone: Session)
      requires Valid() && i < |media.sessions|
      modifies this`log, this`s, media`sessions
      ensures Valid() && gone == old(media.sessions[i])
      ensures s == SessionClosed(
        Legs(old(s), old(s).media.sessions[..i] + old(s).media.sessions[i + 1..]), gone)
    {
      gone := media.Remove(i);
      s := Legs(s, s.media.sessions[..i] + s.media.sessions[i + 1..]);
      Publish(WebrtcEvent(gone.id, gone.call, CLOSED));
      var orphaned := media.OrphanedMonitor(gone.call);
      if orphaned {
        s := s.(tasks := s.tasks + multiset{Grace(gone.call)});
      }
    }

    // A leg's teardown ended; then whoever waited for it goes on.
    method LegTornDown(id: nat)
      requires Valid() && Enabled(s, TornDown(id))
      modifies this`log, this`s, media
      ensures Valid() && s == Step(old(s), TornDown(id))
      ensures var x := old(media.sessions)[ById(old(media.sessions), id)];
        if x.after.HangUp? then
          && |s.past.hangups| == |old(s).past.hangups| + 1
          && s.tasks[HangingUp(x.call, x.after.next)] == old(s).tasks[HangingUp(x.call, x.after.next)] + 1
        else s.past.hangups == old(s).past.hangups
    {
      var i := media.Find(id);
      var gone := LegClosed(i);
      WaiterGoesOn(gone);
      TheHangUpIsMade(old(s), id);
    }

    // Whoever waited for a leg that is out of the book.
    method WaiterGoesOn(gone: Session)
      requires Valid()
      modifies this`s, media
      ensures Valid()
      ensures s == match gone.after
        case HangUp(next) =>
          Submit(old(s), gone.call, next, false, gone.id in old(s).past.asked && old(s).past.asked[gone.id])
        case Reoffer => NewLeg(old(s), gone.call)
        case _ => old(s)
    {
      match gone.after
      case HangUp(next) =>
        s := Submit(s, gone.call, next, false, gone.id in s.past.asked && s.past.asked[gone.id]);
      case Reoffer =>
        s := NewLeg(s, gone.call);
        var made := media.Add(gone.call);
      case _ =>
    }

    // `_reap_after_grace` wakes: still an orphaned monitor, it is hung up.
    method GraceOver(call: CallId, handle: CallHandle) returns (reaped: bool)
      requires Valid() && Grace(call) in s.tasks
      modifies this`s, media`sessions
      ensures Valid() && s == Step(old(s), Resume(Grace(call), Returned(handle)))
      ensures reaped == Orphaned(old(s), call)
      ensures reaped ==> media.sessions == old(media.sessions)
    {
      ResumesGrace(s, call, handle);
      s := s.(tasks := s.tasks - multiset{Grace(call)});
      reaped := media.OrphanedMonitor(call);
      if reaped {
        var submitted := HangUpTracked(call, End, HangUp(End), true);
      }
    }

    method ClearAll()
      requires Valid()
      modifies this`log, this`s, calls
      ensures Valid() && s == Step(old(s), ClearCalls)
    {
      calls.Clear();
      s := Noted(s, Cleared).(book := NO_CALLS);
      PublishState();
    }
  }
}
