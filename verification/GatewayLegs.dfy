// The browser legs, the microphone and the book over whole runs: what closes a leg and what
// makes one, whose word the microphone follows, and what a command learns of a dialog.
module Legs {
  import opened Options
  import opened CallEntries
  import opened GatewayModel
  import GatewayLaws
  import opened Coroutines

  // The hang-up a step asks for is of this dialog.
  predicate HangsUp(s: State, a: Action, call: CallId)
    requires Enabled(s, a)
  {
    Asks(s, a).Some? && Asks(s, a).value.HangingUp? && Asks(s, a).value.call == call
  }

  predicate Offers(s: State, a: Action, call: CallId) { a.Offer? && Picked(s, a.named) == Ok(call) }

  // Told to close by its own number: asked to, its dialog over, or its answer failed.
  predicate ShutByName(a: Action, id: nat) {
    || a == CloseLeg(id)
    || (a.Resume? && a.task == Ending(id) && a.outcome.Returned?)
    || (a.Resume? && a.task.Offering? && a.task.session == id && !a.outcome.Returned? && !a.outcome.Cancelled?)
  }

  // Or as the first leg of a dialog to be hung up, or offered another leg.
  predicate Shuts(s: State, a: Action, k: nat)
    requires Enabled(s, a) && k < |s.media.sessions|
  {
    var x := s.media.sessions[k];
    || ShutByName(a, x.id)
    || (k == ForCall(s.media.sessions, x.call) && (HangsUp(s, a, x.call) || Offers(s, a, x.call)))
  }

  // What a leg just told to close leaves for later.
  function Later(s: State, a: Action, call: CallId): Then
    requires Enabled(s, a)
  {
    if Offers(s, a, call) then Reoffer
    else if HangsUp(s, a, call) then HangUp(Asks(s, a).value.next)
    else Nothing
  }

  // One leg, after a step that is not its own teardown.
  function Kept(s: State, a: Action, k: nat): Session
    requires Enabled(s, a) && k < |s.media.sessions|
  {
    var x := s.media.sessions[k];
    Session(x.id, x.call, x.closed || Shuts(s, a, k),
            if a.Flows? && a.session == x.id then a.flow else x.flow,
            if a == Cut(x.id) then Never
            else if !x.closed && Shuts(s, a, k) then Later(s, a, x.call) else x.after)
  }

  function Made(s: State, a: Action): seq<Session>
    requires Enabled(s, a)
  {
    match Asks(s, a)
    case Some(Offering(id, call)) => [Session(id, call, false, WAITING, Nothing)]
    case _ => []
  }

  // The legs there were, each kept or told to close, less the one torn down; and at the end
  // the one made, if one was.
  ghost predicate Moves(s: State, a: Action)
    requires Enabled(s, a)
  {
    var legs, now := s.media.sessions, Step(s, a).media.sessions;
    if a.TornDown? then
      var i := ById(legs, a.session);
      now == legs[..i] + legs[i + 1..] + Made(s, a)
    else
      now == seq(|legs|, k requires 0 <= k < |legs| => Kept(s, a, k)) + Made(s, a)
  }

  // Nobody's leg but this one changed.
  lemma OneChanged(s: State, a: Action, i: nat, x: Session)
    requires Enabled(s, a) && !a.TornDown? && i < |s.media.sessions| && Made(s, a) == []
    requires Step(s, a).media.sessions == s.media.sessions[i := x] && Kept(s, a, i) == x
    requires forall k | 0 <= k < |s.media.sessions| && k != i :: Kept(s, a, k) == s.media.sessions[k]
    ensures Moves(s, a)
  {
  }

  lemma NoneChanged(s: State, a: Action)
    requires Enabled(s, a) && !a.TornDown?
    requires Step(s, a).media.sessions == s.media.sessions + Made(s, a)
    requires forall k | 0 <= k < |s.media.sessions| :: Kept(s, a, k) == s.media.sessions[k]
    ensures Moves(s, a)
  {
  }

  // No two legs have the same number.
  lemma IdsApart(sessions: seq<Session>, made: nat, id: nat)
    requires GatewayLaws.Numbered(Media(sessions, made, true))
    ensures var i := ById(sessions, id);
      forall k | 0 <= k < |sessions| :: sessions[k].id == id <==> k == i
  {
  }

  lemma NothingAsked(s: State, a: Action, id: nat)
    requires Enabled(s, a) && ShutByName(a, id)
    ensures Asks(s, a) == None && !a.TornDown? && !a.Flows? && !a.Cut? && !a.Offer?
  {
  }

  lemma KeptByNumber(s: State, a: Action, id: nat, k: nat)
    requires Enabled(s, a) && ShutByName(a, id) && k < |s.media.sessions|
    ensures var x := s.media.sessions[k];
      Kept(s, a, k) == if x.id == id
                       then x.(closed := true, after := if x.closed then x.after else Nothing) else x
  {
    NothingAsked(s, a, id);
  }

  // A step that closes by number.
  lemma ByNumber(s: State, a: Action, id: nat)
    requires GatewayLaws.Numbered(s.media) && Enabled(s, a) && ShutByName(a, id)
    requires Step(s, a).media == CloseById(s, id).media
    ensures Moves(s, a)
  {
    var i, legs := ById(s.media.sessions, id), s.media.sessions;
    IdsApart(legs, s.media.made, id);
    NothingAsked(s, a, id);
    forall k | 0 <= k < |legs| ensures Kept(s, a, k) == CloseById(s, id).media.sessions[k] {
      KeptByNumber(s, a, id, k);
    }
  }

  lemma CloseLegMoves(s: State, id: nat)
    requires GatewayLaws.Numbered(s.media)
    ensures Moves(s, CloseLeg(id))
  {
    ByNumber(s, CloseLeg(id), id);
  }

  // The first leg of a dialog to be hung up is told to close, if nobody told it before.
  lemma KeptHanging(s: State, a: Action, call: CallId, next: Next, k: nat)
    requires Enabled(s, a) && Asks(s, a) == Some(HangingUp(call, next)) && k < |s.media.sessions|
    requires !a.Flows? && !a.Cut? && !a.Offer?
    requires forall id :: !ShutByName(a, id)
    ensures var x := s.media.sessions[k];
      Kept(s, a, k) == if k == ForCall(s.media.sessions, call)
                       then x.(closed := true, after := if x.closed then x.after else HangUp(next)) else x
  {
  }

  lemma Hanging(s: State, a: Action, call: CallId, next: Next, reaped: bool)
    requires Enabled(s, a) && Asks(s, a) == Some(HangingUp(call, next)) && !a.TornDown?
    requires !a.Flows? && !a.Cut? && !a.Offer?
    requires forall id :: !ShutByName(a, id)
    requires Step(s, a).media == Hang(s, call, next, reaped).media
    ensures Moves(s, a)
  {
    var legs := s.media.sessions;
    forall k | 0 <= k < |legs| ensures Kept(s, a, k) == Hang(s, call, next, reaped).media.sessions[k] {
      KeptHanging(s, a, call, next, k);
    }
  }

  lemma {:induction false} ProceedHangs(s: State, rest: seq<CallId>)
    ensures Proceed(s, rest).media
      == match Onward(s.book, rest)
         case HangingUp(call, next) => Hang(s, call, next, false).media
         case _ => s.media
    decreases |rest|
  {
    if rest != [] && !Monitor(s.book, rest[0]) { ProceedHangs(s, rest[1..]); }
  }

  // A step that has nothing to do with the legs.
  lemma Aside(s: State, a: Action)
    requires Enabled(s, a) && !a.TornDown? && !a.Flows? && !a.Cut? && !a.Offer?
    requires Step(s, a).media == s.media && forall id :: !ShutByName(a, id)
    requires Asks(s, a).Some? ==> !Asks(s, a).value.HangingUp? && !Asks(s, a).value.Offering?
    ensures Moves(s, a)
  {
    forall k | 0 <= k < |s.media.sessions| ensures Kept(s, a, k) == s.media.sessions[k] {
    }
  }

  lemma HangupMoves(s: State, call: CallId)
    ensures Moves(s, Hangup(call))
  {
    if call in s.book.calls {
      Hanging(s, Hangup(call), call, End, false);
    } else {
      Aside(s, Hangup(call));
    }
  }

  lemma OnwardMoves(s: State, a: Action, b: State, rest: seq<CallId>)
    requires Enabled(s, a) && Asks(s, a) == Some(Onward(b.book, rest)) && b.media == s.media
    requires !a.TornDown? && !a.Flows? && !a.Cut? && !a.Offer? && forall id :: !ShutByName(a, id)
    requires Step(s, a).media == Proceed(b, rest).media
    ensures Moves(s, a)
  {
    ProceedHangs(b, rest);
    MonitorsGoFirst(b.book, rest);
    match Onward(b.book, rest)
    case HangingUp(call, next) =>
      assert Hang(b, call, next, false).media == Hang(s, call, next, false).media;
      Hanging(s, a, call, next, false);
    case Inviting => Aside(s, a);
  }

  lemma HungUpMedia(s: State, call: CallId, rest: seq<CallId>)
    ensures var gone := PublishState(Noted(s, Dropped(call)).(book := Forgotten(s.book, call)));
      && gone.media == s.media && gone.book == Forgotten(s.book, call)
      && HungUp(s, call, Place(rest)) == Proceed(gone, rest)
  {
  }

  lemma PlacingMoves(s: State, call: CallId, rest: seq<CallId>, handle: CallHandle)
    requires HangingUp(call, Place(rest)) in s.tasks
    ensures Moves(s, Resume(HangingUp(call, Place(rest)), Returned(handle)))
  {
    var u := s.(tasks := s.tasks - multiset{HangingUp(call, Place(rest))});
    HungUpMedia(u, call, rest);
    OnwardMoves(s, Resume(HangingUp(call, Place(rest)), Returned(handle)),
                PublishState(Noted(u, Dropped(call)).(book := Forgotten(u.book, call))), rest);
  }

  lemma HungUpMoves(s: State, call: CallId, next: Next, outcome: Outcome)
    requires HangingUp(call, next) in s.tasks
    ensures Moves(s, Resume(HangingUp(call, next), outcome))
  {
    if outcome.Returned? && next.Place? {
      PlacingMoves(s, call, next.rest, outcome.handle);
    } else {
      Aside(s, Resume(HangingUp(call, next), outcome));
    }
  }

  lemma GraceMoves(s: State, call: CallId, outcome: Outcome)
    requires Grace(call) in s.tasks
    ensures Moves(s, Resume(Grace(call), outcome))
  {
    var a := Resume(Grace(call), outcome);
    if outcome.Returned? && Orphaned(s, call) {
      Hanging(s, a, call, End, true);
    } else {
      Aside(s, a);
    }
  }

  lemma OfferingMoves(s: State, id: nat, call: CallId, outcome: Outcome)
    requires GatewayLaws.Numbered(s.media) && Offering(id, call) in s.tasks
    ensures Moves(s, Resume(Offering(id, call), outcome))
  {
    var a := Resume(Offering(id, call), outcome);
    if outcome.Returned? || outcome.Cancelled? { Aside(s, a); } else { ByNumber(s, a, id); }
  }

  lemma EndingMoves(s: State, id: nat, outcome: Outcome)
    requires GatewayLaws.Numbered(s.media) && Ending(id) in s.tasks
    ensures Moves(s, Resume(Ending(id), outcome))
  {
    var a := Resume(Ending(id), outcome);
    if outcome.Returned? { ByNumber(s, a, id); } else { Aside(s, a); }
  }

  lemma ResumeMoves(s: State, task: Task, outcome: Outcome)
    requires GatewayLaws.Numbered(s.media) && task in s.tasks
    ensures Moves(s, Resume(task, outcome))
  {
    match task
    case HangingUp(call, next) => HungUpMoves(s, call, next, outcome);
    case Grace(call) => GraceMoves(s, call, outcome);
    case Offering(id, call) => OfferingMoves(s, id, call, outcome);
    case Ending(id) => EndingMoves(s, id, outcome);
    case _ => Aside(s, Resume(task, outcome));
  }

  lemma KeptOffered(s: State, named: Option<CallId>, call: CallId, k: nat)
    requires Picked(s, named) == Ok(call) && k < |s.media.sessions|
    ensures var x := s.media.sessions[k];
      Kept(s, Offer(named), k) == if k == ForCall(s.media.sessions, call)
                                  then x.(closed := true, after := if x.closed then x.after else Reoffer)
                                  else x
  {
  }

  lemma OfferedMedia(s: State, call: CallId)
    ensures var legs, now := s.media.sessions, Offered(s, call).media.sessions; var i := ForCall(legs, call);
      now == if LegUp(s, call) then legs[i := legs[i].(closed := true, after := Reoffer)]
             else legs + [Session(s.media.made + 1, call, false, WAITING, Nothing)]
  {
  }

  lemma MadeOffered(s: State, named: Option<CallId>, call: CallId)
    requires Picked(s, named) == Ok(call)
    ensures Step(s, Offer(named)) == Offered(s, call)
    ensures Made(s, Offer(named)) == if LegUp(s, call) then []
                                     else [Session(s.media.made + 1, call, false, WAITING, Nothing)]
  {
  }

  lemma ReplacingMoves(s: State, named: Option<CallId>, call: CallId)
    requires Picked(s, named) == Ok(call) && LegUp(s, call)
    ensures Moves(s, Offer(named))
  {
    var i := ForCall(s.media.sessions, call);
    OfferedMedia(s, call);
    MadeOffered(s, named, call);
    forall k | 0 <= k < |s.media.sessions|
      ensures Kept(s, Offer(named), k)
        == if k == i then s.media.sessions[i].(closed := true, after := Reoffer) else s.media.sessions[k]
    {
      KeptOffered(s, named, call, k);
    }
    OneChanged(s, Offer(named), i, s.media.sessions[i].(closed := true, after := Reoffer));
  }

  lemma MakingMoves(s: State, named: Option<CallId>, call: CallId)
    requires Picked(s, named) == Ok(call) && !LegUp(s, call)
    ensures Moves(s, Offer(named))
  {
    OfferedMedia(s, call);
    MadeOffered(s, named, call);
    forall k | 0 <= k < |s.media.sessions| ensures Kept(s, Offer(named), k) == s.media.sessions[k] {
      KeptOffered(s, named, call, k);
    }
    NoneChanged(s, Offer(named));
  }

  lemma AcceptedMoves(s: State, named: Option<CallId>, call: CallId)
    requires Picked(s, named) == Ok(call)
    ensures Moves(s, Offer(named))
  {
    if LegUp(s, call) { ReplacingMoves(s, named, call); } else { MakingMoves(s, named, call); }
  }

  lemma RefusedMoves(s: State, named: Option<CallId>)
    requires Picked(s, named).Err?
    ensures Moves(s, Offer(named))
  {
    forall k | 0 <= k < |s.media.sessions| ensures Kept(s, Offer(named), k) == s.media.sessions[k] {
    }
  }

  lemma OfferMoves(s: State, named: Option<CallId>)
    ensures Moves(s, Offer(named))
  {
    match Picked(s, named)
    case Ok(call) => AcceptedMoves(s, named, call);
    case Err(_) => RefusedMoves(s, named);
  }

  lemma CutMoves(s: State, id: nat)
    requires GatewayLaws.Numbered(s.media) && Enabled(s, Cut(id))
    ensures Moves(s, Cut(id))
  {
    IdsApart(s.media.sessions, s.media.made, id);
    forall k | 0 <= k < |s.media.sessions|
      ensures Kept(s, Cut(id), k) == Step(s, Cut(id)).media.sessions[k]
    {
    }
  }

  lemma FlowsMoves(s: State, id: nat, flow: SessionState)
    requires GatewayLaws.Numbered(s.media) && Enabled(s, Flows(id, flow))
    ensures Moves(s, Flows(id, flow))
  {
    IdsApart(s.media.sessions, s.media.made, id);
    forall k | 0 <= k < |s.media.sessions|
      ensures Kept(s, Flows(id, flow), k) == Step(s, Flows(id, flow)).media.sessions[k]
    {
    }
  }

  lemma ToldMedia(s: State, x: Session)
    ensures SessionClosed(s, x).media == s.media
  {
  }

  lemma FinishMedia(s: State, i: nat)
    requires i < |s.media.sessions|
    ensures var x := s.media.sessions[i];
      Finish(s, i).media.sessions == s.media.sessions[..i] + s.media.sessions[i + 1..]
        + if x.after.Reoffer? then [Session(s.media.made + 1, x.call, false, WAITING, Nothing)] else []
  {
    var x, rest := s.media.sessions[i], s.media.sessions[..i] + s.media.sessions[i + 1..];
    ToldMedia(GatewayModel.Legs(s, rest), x);
    assert rest + [] == rest;
  }

  lemma TornDownMoves(s: State, id: nat)
    requires Enabled(s, TornDown(id))
    ensures Moves(s, TornDown(id))
  {
    FinishMedia(s, ById(s.media.sessions, id));
  }

  lemma ReportMoves(s: State, handle: CallHandle, state: CallState)
    ensures Moves(s, Reports(handle, state))
  {
    ReportTasks(s, handle, state);
    Aside(s, Reports(handle, state));
  }

  lemma OthersMove(s: State, a: Action)
    requires Enabled(s, a) && (Simple(a) || a.Open?)
    ensures Moves(s, a)
  {
    Aside(s, a);
  }

  lemma LegsMove(s: State, a: Action)
    requires GatewayLaws.Numbered(s.media) && Enabled(s, a)
    ensures Moves(s, a)
  {
    match a
    case CloseLeg(id) => CloseLegMoves(s, id);
    case Hangup(call) => HangupMoves(s, call);
    case PlaceCall => OnwardMoves(s, a, s, StreamingIds(s.book));
    case Resume(task, outcome) => ResumeMoves(s, task, outcome);
    case Offer(named) => OfferMoves(s, named);
    case Cut(id) => CutMoves(s, id);
    case Flows(id, flow) => FlowsMoves(s, id, flow);
    case TornDown(id) => TornDownMoves(s, id);
    case Reports(handle, state) => ReportMoves(s, handle, state);
    case _ => OthersMove(s, a);
  }

  // In every run, and for every step from there: a leg closes exactly when it is told to by
  // its number, or as the first leg of a dialog to be hung up or offered another leg, and it
  // keeps for later what it was told to close for; it leaves the book at its own teardown
  // and in no other way; and a leg is made for a dialog exactly when an answer for it sets
  // out.
  lemma LegsMoveExactlyWhen(factory: bool, run: seq<Action>, a: Action)
    requires Feasible(Start(factory), run) && Enabled(Run(Start(factory), run), a)
    ensures Moves(Run(Start(factory), run), a)
  {
    GatewayLaws.GrowsThrough(Start(factory), run);
    LegsMove(Run(Start(factory), run), a);
  }
}

// What the service owns, and what it learns.
module Learning {
  import opened Options
  import opened CallEntries
  import opened GatewayModel
  import GatewayLaws
  import LastView

  // What the last mute to return said, or else this.
  function MutedAfter(muted: bool, run: seq<Action>): bool
    decreases |run|
  {
    if run == [] then muted
    else if run[0].Resume? && run[0].task.Muting? && run[0].outcome.Returned?
    then MutedAfter(run[0].task.muted, run[1..])
    else MutedAfter(muted, run[1..])
  }

  function BoundAfter(binding: Binding, run: seq<Action>): Binding
    decreases |run|
  {
    if run == [] then binding
    else BoundAfter(if run[0].BindingMoves? then run[0].binding else binding, run[1..])
  }

  lemma OwnBack(s: State, task: Task, outcome: Outcome)
    ensures Resumed(s, task, outcome).own.micMuted
         == if task.Muting? && outcome.Returned? then task.muted else s.own.micMuted
    ensures Resumed(s, task, outcome).own.binding == s.own.binding
  {
    match task
    case HangingUp(call, next) =>
      var t := PublishState(Noted(s, Dropped(call)).(book := Forgotten(s.book, call)));
      if next.Place? { GatewayLaws.ProceedLeaves(t, next.rest); }
    case _ =>
  }

  lemma OwnAside(s: State, a: Action)
    requires Enabled(s, a) && !a.Resume? && !a.PlaceCall? && !a.TornDown?
    ensures var own := Step(s, a).own;
      && own.micMuted == s.own.micMuted
      && own.binding == if a.BindingMoves? then a.binding else s.own.binding
  {
  }

  lemma OwnStep(s: State, a: Action)
    requires Enabled(s, a)
    ensures Step(s, a).own.micMuted
         == if a.Resume? && a.task.Muting? && a.outcome.Returned? then a.task.muted else s.own.micMuted
    ensures Step(s, a).own.binding == if a.BindingMoves? then a.binding else s.own.binding
  {
    if a.Resume? {
      OwnBack(s.(tasks := s.tasks - multiset{a.task}), a.task, a.outcome);
    } else if a.PlaceCall? {
      GatewayLaws.ProceedLeaves(s, StreamingIds(s.book));
    } else if a.TornDown? {
      GatewayLaws.FinishLeaves(s, ById(s.media.sessions, a.session));
      FinishBinds(s, ById(s.media.sessions, a.session));
    } else {
      OwnAside(s, a);
    }
  }

  lemma FinishBinds(s: State, i: nat)
    requires i < |s.media.sessions|
    ensures Finish(s, i).own == s.own
  {
  }

  lemma {:induction false} OwnThrough(s: State, run: seq<Action>)
    requires Feasible(s, run)
    ensures Run(s, run).own.micMuted == MutedAfter(s.own.micMuted, run)
    ensures Run(s, run).own.binding == BoundAfter(s.own.binding, run)
    decreases |run|
  {
    if run != [] {
      OwnStep(s, run[0]);
      OwnThrough(Step(s, run[0]), run[1..]);
    }
  }

  // Whoever asked and however many mutes crossed: the microphone is what the last mute to
  // return said, and muted before any did; and what the port answers is its latest word.
  lemma TheLastWordIsOwned(factory: bool, run: seq<Action>)
    requires Feasible(Start(factory), run)
    ensures Run(Start(factory), run).own.micMuted == MutedAfter(true, run)
    ensures Run(Start(factory), run).own.binding == BoundAfter(Binding(false, None), run)
  {
    OwnThrough(Start(factory), run);
  }

  // A call placed or answered that returned: the entry of the handle it came back with, if
  // the book still has one, streams, carries that handle and is on our side or theirs, for
  // the panel's own ring outranks it; no entry is added, no other changes, and the state
  // that shows it is published.
  lemma ACallThatReturnedSharpens(s: State, task: Task, handle: CallHandle)
    requires (task == Inviting || task == Answering(handle)) && task in s.tasks
    ensures var t := Step(s, Resume(task, Returned(handle))); var id := handle.id;
      && t.book.calls.Keys == s.book.calls.Keys && t.book.order == s.book.order
      && t.book.rang == s.book.rang
      && (forall x | x in s.book.calls && x != id :: t.book.calls[x] == s.book.calls[x])
      && (id in s.book.calls ==>
            var side := if task == Inviting && id !in s.book.rang then OUTGOING else INCOMING;
            t.book.calls[id] == Tracked(handle, Streaming, side))
      && LastView.UpToDate(t) && |t.log| == |s.log| + 1
  {
    LastView.SettledSharpened(s, handle, if task == Inviting then OUTGOING else INCOMING);
  }
}
