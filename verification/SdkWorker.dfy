// The SDK worker over its whole history: every call submitted, how far it came, and
// whether its awaiter is still there. A cancelled await drops a call not begun and only
// leaves one that has.
module CrossingModel {

  datatype Phase = Queued | Running | Finished | Dropped
  datatype Call = Call(phase: Phase, awaited: bool)

  datatype State = State(
    calls: seq<Call>,        // every call accepted, in order of submission
    active: nat,
    stopped: bool,
    joined: bool,            // `aclose` has returned
    started: seq<nat>)       // history: the calls the thread began, in order

  datatype Action =
    | Submit
    | Start(id: nat)         // the thread takes the oldest queued call
    | Finish(id: nat)
    | Resume(id: nat)        // the awaiter learns the result
    | Cancel(id: nat)        // the await is cancelled; a queued call may still be dropped
    | Stop                   // `aclose`: nothing queued is kept
    | Join                   // the thread has ended

  const FRESH := State([], 0, false, false, [])

  predicate At(s: State, id: nat, phase: Phase) { id < |s.calls| && s.calls[id].phase == phase }

  predicate NoneRunning(s: State) { forall i | 0 <= i < |s.calls| :: !s.calls[i].phase.Running? }

  predicate Enabled(s: State, a: Action) {
    match a
    case Submit => true
    case Start(id) =>
      && !s.joined && At(s, id, Queued) && NoneRunning(s)
      && forall i | 0 <= i < id :: !s.calls[i].phase.Queued?
    case Finish(id) => At(s, id, Running)
    case Resume(id) => id < |s.calls| && s.calls[id].awaited
                       && (s.calls[id].phase.Finished? || s.calls[id].phase.Dropped?)
    case Cancel(id) => id < |s.calls| && s.calls[id].awaited
    case Stop => !s.stopped
    case Join => s.stopped && !s.joined && NoneRunning(s)
  }

  function To(s: State, id: nat, phase: Phase): State
    requires id < |s.calls|
  {
    s.(calls := s.calls[id := s.calls[id].(phase := phase)])
  }

  // `finally: self._active -= 1`, however the await ended.
  function Left(s: State, id: nat): State
    requires id < |s.calls| && s.active > 0
  {
    s.(calls := s.calls[id := s.calls[id].(awaited := false)], active := s.active - 1)
  }

  function Unqueued(call: Call): Call {
    if call.phase.Queued? then call.(phase := Dropped) else call
  }

  function Drained(calls: seq<Call>): seq<Call> {
    seq(|calls|, i requires 0 <= i < |calls| => Unqueued(calls[i]))
  }

  function Step(s: State, a: Action): State
    requires Enabled(s, a)
    requires s.active == Awaited(s.calls)
  {
    match a
    case Submit =>
      if s.stopped then s   // WorkerStoppedError, and the call was not run
      else s.(calls := s.calls + [Call(Queued, true)], active := s.active + 1)
    case Start(id) => To(s, id, Running).(started := s.started + [id])
    case Finish(id) => To(s, id, Finished)
    case Resume(id) => AwaitedPositive(s.calls, id); Left(s, id)
    case Cancel(id) =>
      AwaitedPositive(s.calls, id);
      var t := Left(s, id);
      if s.calls[id].phase.Queued? then To(t, id, Dropped) else t
    case Stop => s.(stopped := true, calls := Drained(s.calls))
    case Join => s.(joined := true)
  }

  function Awaited(calls: seq<Call>): nat {
    if calls == [] then 0
    else Awaited(calls[..|calls| - 1]) + if calls[|calls| - 1].awaited then 1 else 0
  }

  lemma {:induction false} AwaitedPositive(calls: seq<Call>, id: nat)
    requires id < |calls| && calls[id].awaited
    ensures Awaited(calls) > 0
  {
    if id < |calls| - 1 {
      AwaitedPositive(calls[..|calls| - 1], id);
    }
  }

  lemma {:induction false} AwaitedUpdate(calls: seq<Call>, id: nat, call: Call)
    requires id < |calls|
    ensures Awaited(calls[id := call])
         == Awaited(calls) + (if call.awaited then 1 else 0) - (if calls[id].awaited then 1 else 0)
  {
    var last := |calls| - 1;
    if id < last {
      AwaitedUpdate(calls[..last], id, call);
      assert calls[id := call][..last] == calls[..last][id := call];
    } else {
      assert calls[id := call][..last] == calls[..last];
    }
  }

  lemma {:induction false} DrainedAwaited(calls: seq<Call>)
    ensures Awaited(Drained(calls)) == Awaited(calls)
  {
    if calls != [] {
      var before := calls[..|calls| - 1];
      DrainedAwaited(before);
      assert Drained(calls)[..|calls| - 1] == Drained(before);
    }
  }

  // One call at a time, in the order of submission: whatever came before the newest call
  // begun is over, one way or the other.
  ghost predicate InOrder(calls: seq<Call>, started: seq<nat>) {
    && (forall i, j | 0 <= i < j < |started| :: started[i] < started[j])
    && (forall k | 0 <= k < |started| :: started[k] < |calls|
          && (calls[started[k]].phase.Finished?
              || (k == |started| - 1 && calls[started[k]].phase.Running?)))
    && (forall i | 0 <= i < |calls| && calls[i].phase.Running? :: Newest(started, i))
    && (forall i, k | 0 <= i < |calls| && 0 <= k < |started| && i < started[k] ::
          !calls[i].phase.Queued?)
  }

  predicate Newest(started: seq<nat>, i: nat) { started != [] && started[|started| - 1] == i }

  ghost predicate Shut(s: State) {
    && (s.stopped ==> forall i | 0 <= i < |s.calls| :: !s.calls[i].phase.Queued?)
    && (s.joined ==> s.stopped && NoneRunning(s))
  }

  ghost predicate Inv(s: State) {
    s.active == Awaited(s.calls) && InOrder(s.calls, s.started) && Shut(s)
  }

  // A call ends, is dropped, or only loses its awaiter.
  predicate Moves(was: Call, call: Call) {
    || call.phase == was.phase
    || (was.phase.Running? && call.phase.Finished?)
    || (was.phase.Queued? && call.phase.Dropped?)
  }

  lemma OrderKept(calls: seq<Call>, now: seq<Call>, started: seq<nat>)
    requires InOrder(calls, started) && |now| == |calls|
    requires forall i | 0 <= i < |calls| :: Moves(calls[i], now[i])
    ensures InOrder(now, started)
  {
  }

  lemma StartKeeps(s: State, id: nat)
    requires InOrder(s.calls, s.started) && Enabled(s, Start(id))
    ensures InOrder(s.calls[id := s.calls[id].(phase := Running)], s.started + [id])
  {
    forall k | 0 <= k < |s.started| ensures s.started[k] < id {
      assert s.calls[s.started[k]].phase.Finished?;
    }
  }

  // One call changed: the order holds, and so does what was shut.
  lemma MoveKeeps(s: State, id: nat, call: Call)
    requires Inv(s) && id < |s.calls| && Moves(s.calls[id], call)
    ensures InOrder(s.calls[id := call], s.started)
    ensures Shut(s.(calls := s.calls[id := call]))
  {
    OrderKept(s.calls, s.calls[id := call], s.started);
  }

  lemma StartStep(s: State, id: nat)
    requires Inv(s) && Enabled(s, Start(id))
    ensures Inv(Step(s, Start(id)))
  {
    AwaitedUpdate(s.calls, id, s.calls[id].(phase := Running));
    StartKeeps(s, id);
  }

  lemma StopStep(s: State)
    requires Inv(s) && Enabled(s, Stop)
    ensures Inv(Step(s, Stop))
  {
    DrainedAwaited(s.calls);
    OrderKept(s.calls, Drained(s.calls), s.started);
  }

  lemma MoveStep(s: State, a: Action)
    requires Inv(s) && Enabled(s, a) && (a.Finish? || a.Resume? || a.Cancel?)
    ensures Inv(Step(s, a))
  {
    var call := Step(s, a).calls[a.id];
    AwaitedUpdate(s.calls, a.id, call);
    MoveKeeps(s, a.id, call);
    assert Step(s, a).calls == s.calls[a.id := call];
  }

  lemma StepKeeps(s: State, a: Action)
    requires Inv(s) && Enabled(s, a)
    ensures Inv(Step(s, a))
  {
    match a
    case Submit =>
      if !s.stopped {
        assert Step(s, a).calls[..|s.calls|] == s.calls;
      }
    case Start(id) => StartStep(s, id);
    case Stop => StopStep(s);
    case Join =>
    case _ => MoveStep(s, a);
  }

  predicate Feasible(s: State, run: seq<Action>)
    decreases |run|
  {
    run == [] || (s.active == Awaited(s.calls) && Enabled(s, run[0]) && Feasible(Step(s, run[0]), run[1..]))
  }

  function Run(s: State, run: seq<Action>): State
    requires Feasible(s, run)
    decreases |run|
  {
    if run == [] then s else Run(Step(s, run[0]), run[1..])
  }

  lemma {:induction false} RunKeeps(s: State, run: seq<Action>)
    requires Inv(s) && Feasible(s, run)
    ensures Inv(Run(s, run))
    decreases |run|
  {
    if run != [] {
      StepKeeps(s, run[0]);
      RunKeeps(Step(s, run[0]), run[1..]);
    }
  }

  predicate Busy(s: State) { s.active > 0 }

  // In every run calls begin in the order they were submitted, one at a time; nothing
  // begins after `aclose` began, and nothing is queued or running once it has returned.
  lemma CallsSerialise(run: seq<Action>)
    requires Feasible(FRESH, run)
    ensures var s := Run(FRESH, run);
      && (forall i, j | 0 <= i < j < |s.started| :: s.started[i] < s.started[j])
      && (forall i | 0 <= i < |s.calls| && s.calls[i].phase.Running? :: Newest(s.started, i))
      && (s.stopped ==> forall i | 0 <= i < |s.calls| :: !s.calls[i].phase.Queued?)
      && (s.joined ==> forall i | 0 <= i < |s.calls| ::
                         s.calls[i].phase.Finished? || s.calls[i].phase.Dropped?)
  {
    RunKeeps(FRESH, run);
  }

  // What `busy` says is whether some await has not come back. A call nobody gave up on
  // makes it true while it is queued or running.
  lemma BusyIsAwaited(run: seq<Action>)
    requires Feasible(FRESH, run)
    ensures var s := Run(FRESH, run);
      Busy(s) <==> exists i :: 0 <= i < |s.calls| && s.calls[i].awaited
  {
    RunKeeps(FRESH, run);
    var s := Run(FRESH, run);
    if Busy(s) {
      SomeAwaited(s.calls);
    } else if i :| 0 <= i < |s.calls| && s.calls[i].awaited {
      AwaitedPositive(s.calls, i);
    }
  }

  lemma {:induction false} SomeAwaited(calls: seq<Call>)
    requires Awaited(calls) > 0
    ensures exists i :: 0 <= i < |calls| && calls[i].awaited
  {
    var last := |calls| - 1;
    if !calls[last].awaited {
      SomeAwaited(calls[..last]);
      var i :| 0 <= i < |calls[..last]| && calls[..last][i].awaited;
      assert calls[i].awaited;
    }
  }

  // So it is not quite whether the thread has anything to do: a call whose await was
  // cancelled runs on behind a worker that is not busy.
  lemma NotBusyYetRunning()
    ensures var run := [Submit] + ([Start(0)] + ([Cancel(0)] + []));
      Feasible(FRESH, run) && !Busy(Run(FRESH, run)) && At(Run(FRESH, run), 0, Running)
  {
    assert Inv(FRESH);
    var s1 := Step(FRESH, Submit);
    StepKeeps(FRESH, Submit);
    assert s1.calls == [Call(Queued, true)] && s1.active == 1;
    var s2 := Step(s1, Start(0));
    StepKeeps(s1, Start(0));
    assert s2.calls == [Call(Running, true)];
    var s3 := Step(s2, Cancel(0));
    assert s3.calls == [Call(Running, false)] && s3.active == 0;
    Then(s2, Cancel(0), []);
    Then(s1, Start(0), [Cancel(0)] + []);
    Then(FRESH, Submit, [Start(0)] + ([Cancel(0)] + []));
  }

  lemma Then(s: State, a: Action, rest: seq<Action>)
    requires s.active == Awaited(s.calls) && Enabled(s, a) && Feasible(Step(s, a), rest)
    ensures Feasible(s, [a] + rest) && Run(s, [a] + rest) == Run(Step(s, a), rest)
  {
    assert ([a] + rest)[1..] == rest;
  }

  // ---- a queue, as the other components see it ---------------------------------

  predicate Open(call: Call) { call.phase.Queued? || call.phase.Running? }

  // The calls not over yet, in order of submission.
  function Pending(calls: seq<Call>): seq<nat> {
    if calls == [] then []
    else
      var last := |calls| - 1;
      Pending(calls[..last]) + if Open(calls[last]) then [last] else []
  }

  lemma {:induction false} PendingAre(calls: seq<Call>)
    ensures forall id: nat :: id in Pending(calls) <==> id < |calls| && Open(calls[id])
    ensures forall i, j | 0 <= i < j < |Pending(calls)| :: Pending(calls)[i] < Pending(calls)[j]
  {
    if calls != [] {
      var last := |calls| - 1;
      PendingAre(calls[..last]);
      var ids := Pending(calls[..last]);
      assert forall i | 0 <= i < |ids| :: ids[i] in ids;
    }
  }

  function Less(ids: seq<nat>, id: nat): seq<nat> {
    if ids == [] then []
    else Less(ids[..|ids| - 1], id) + if ids[|ids| - 1] == id then [] else [ids[|ids| - 1]]
  }

  lemma {:induction false} LessNothing(ids: seq<nat>, id: nat)
    requires id !in ids
    ensures Less(ids, id) == ids
  {
    if ids != [] { LessNothing(ids[..|ids| - 1], id); }
  }

  lemma {:induction false} LessHead(ids: seq<nat>)
    requires ids != [] && forall i, j | 0 <= i < j < |ids| :: ids[i] < ids[j]
    ensures Less(ids, ids[0]) == ids[1..]
  {
    var last := |ids| - 1;
    if last > 0 {
      LessHead(ids[..last]);
      assert ids[..last][1..] + [ids[last]] == ids[1..];
    }
  }

  lemma LessMore(ids: seq<nat>, last: nat, id: nat)
    ensures Less(ids + [last], id) == Less(ids, id) + if last == id then [] else [last]
  {
    assert (ids + [last])[..|ids|] == ids;
  }

  lemma PendingMore(calls: seq<Call>, call: Call)
    ensures Pending(calls + [call]) == Pending(calls) + if Open(call) then [|calls|] else []
  {
    assert (calls + [call])[..|calls|] == calls;
  }

  lemma LastLoses(before: seq<Call>, was: Call, call: Call)
    requires Open(was) && !Open(call)
    ensures Pending(before + [call]) == Less(Pending(before + [was]), |before|)
  {
    PendingMore(before, was);
    PendingMore(before, call);
    PendingAre(before);
    LessMore(Pending(before), |before|, |before|);
    LessNothing(Pending(before), |before|);
  }

  lemma EarlierLoses(before: seq<Call>, now: seq<Call>, last: Call, id: nat)
    requires |now| == |before| && id < |before|
    requires Pending(now) == Less(Pending(before), id)
    ensures Pending(now + [last]) == Less(Pending(before + [last]), id)
  {
    PendingMore(before, last);
    PendingMore(now, last);
    LessMore(Pending(before), |before|, id);
    assert Pending(before) + [] == Pending(before);
  }

  // One call is over: it is out of the queue, and nothing else moves.
  lemma {:induction false} PendingLoses(calls: seq<Call>, id: nat, call: Call)
    requires id < |calls| && Open(calls[id]) && !Open(call)
    ensures Pending(calls[id := call]) == Less(Pending(calls), id)
  {
    var last := |calls| - 1;
    var before := calls[..last];
    assert calls == before + [calls[last]];
    if id < last {
      PendingLoses(before, id, call);
      EarlierLoses(before, before[id := call], calls[last], id);
      assert calls[id := call] == before[id := call] + [calls[last]];
    } else {
      LastLoses(before, calls[last], call);
      assert calls[id := call] == before + [call];
    }
  }

  // One call changed and still to come, or over as before: nothing moves.
  lemma {:induction false} PendingSame(calls: seq<Call>, id: nat, call: Call)
    requires id < |calls| && (Open(calls[id]) <==> Open(call))
    ensures Pending(calls[id := call]) == Pending(calls)
  {
    var last := |calls| - 1;
    var before := calls[..last];
    assert calls == before + [calls[last]];
    PendingMore(before, calls[last]);
    if id < last {
      PendingSame(before, id, call);
      assert calls[id := call] == before[id := call] + [calls[last]];
      PendingMore(before[id := call], calls[last]);
    } else {
      assert calls[id := call] == before + [call];
      PendingMore(before, call);
    }
  }

  // What runs, or is about to, stands first.
  lemma HeadRuns(s: State, id: nat)
    requires Inv(s) && id < |s.calls|
    requires s.calls[id].phase.Running? || Enabled(s, Start(id))
    ensures Pending(s.calls) != [] && Pending(s.calls)[0] == id
  {
    var ids := Pending(s.calls);
    PendingAre(s.calls);
    assert id in ids;
    var first := ids[0];
    assert first in ids && first <= id;
    if s.calls[id].phase.Running? {
      assert Newest(s.started, id);
      assert s.calls[first].phase.Running? ==> Newest(s.started, first);
    }
  }

  lemma CancelledLeaves(s: State, id: nat)
    requires Inv(s) && Enabled(s, Cancel(id))
    ensures Pending(Step(s, Cancel(id)).calls)
         == if s.calls[id].phase.Queued? then Less(Pending(s.calls), id) else Pending(s.calls)
  {
    var call := s.calls[id].(awaited := false);
    if call.phase.Queued? {
      PendingLoses(s.calls, id, call.(phase := Dropped));
      assert Step(s, Cancel(id)).calls == s.calls[id := call.(phase := Dropped)];
    } else {
      PendingSame(s.calls, id, call);
    }
  }

  // The worker is a queue: a submission goes to the back; the call begun, and the call
  // finished, is the one at the front; a cancelled call leaves wherever it stood, unless
  // it had begun; and nothing else moves.
  lemma TheWorkerIsAQueue(s: State, a: Action)
    requires Inv(s) && Enabled(s, a) && !a.Stop?
    ensures var ids, now := Pending(s.calls), Pending(Step(s, a).calls);
      match a
      case Submit => now == ids + if s.stopped then [] else [|s.calls|]
      case Start(id) => ids != [] && ids[0] == id && now == ids
      case Finish(id) => ids != [] && ids[0] == id && now == ids[1..]
      case Cancel(id) => now == if s.calls[id].phase.Queued? then Less(ids, id) else ids
      case _ => now == ids
  {
    match a
    case Submit => if !s.stopped { PendingMore(s.calls, Call(Queued, true)); }
    case Start(id) =>
      HeadRuns(s, id);
      PendingSame(s.calls, id, s.calls[id].(phase := Running));
    case Finish(id) =>
      HeadRuns(s, id);
      PendingLoses(s.calls, id, s.calls[id].(phase := Finished));
      PendingAre(s.calls);
      LessHead(Pending(s.calls));
    case Resume(id) => PendingSame(s.calls, id, s.calls[id].(awaited := false));
    case Cancel(id) => CancelledLeaves(s, id);
    case _ =>
  }

  // ---- what ends a call --------------------------------------------------------

  // What a step may do to a call: nothing takes a running one off the thread but its own
  // finish, and a queued one is begun by its start, or dropped by a cancellation of its own
  // or by the stop. A call over stays as it is.
  lemma CallsMoveAlone(s: State, a: Action, id: nat)
    requires Inv(s) && Enabled(s, a) && id < |s.calls|
    ensures id < |Step(s, a).calls|
    ensures var was, now := s.calls[id].phase, Step(s, a).calls[id].phase;
      match was
      case Running => now == if a == Finish(id) then Finished else Running
      case Queued => now == (if a == Start(id) then Running
                             else if a == Stop || a == Cancel(id) then Dropped else Queued)
      case _ => now == was
    ensures var was, now := s.calls[id].awaited, Step(s, a).calls[id].awaited;
      now == (was && a != Resume(id) && a != Cancel(id))
  {
  }

  // A running call ends by finishing and in no other way: whatever is cancelled, and though
  // the worker is stopped, it runs until its own finish; and `aclose` does not return before.
  lemma {:induction false} ARunningCallFinishes(s: State, run: seq<Action>, id: nat)
    requires Inv(s) && At(s, id, Running) && Feasible(s, run)
    ensures At(Run(s, run), id, if Finish(id) in run then Finished else Running)
    ensures Run(s, run).joined ==> Finish(id) in run
    decreases |run|
  {
    RunKeeps(s, run);
    if run != [] {
      var t := Step(s, run[0]);
      StepKeeps(s, run[0]);
      CallsMoveAlone(s, run[0], id);
      if run[0] == Finish(id) {
        StaysOver(t, run[1..], id);
      } else {
        ARunningCallFinishes(t, run[1..], id);
      }
    }
  }

  lemma {:induction false} StaysOver(s: State, run: seq<Action>, id: nat)
    requires Inv(s) && At(s, id, Finished) && Feasible(s, run)
    ensures At(Run(s, run), id, Finished)
    decreases |run|
  {
    if run != [] {
      StepKeeps(s, run[0]);
      CallsMoveAlone(s, run[0], id);
      StaysOver(Step(s, run[0]), run[1..], id);
    }
  }

  // ---- where `busy` misses -----------------------------------------------------

  // A call still queued has somebody waiting for it: a cancelled one is dropped.
  ghost predicate QueuedAwaited(s: State) {
    forall i | 0 <= i < |s.calls| && s.calls[i].phase.Queued? :: s.calls[i].awaited
  }

  lemma QueuedAwaitedKept(s: State, a: Action)
    requires Inv(s) && QueuedAwaited(s) && Enabled(s, a)
    ensures QueuedAwaited(Step(s, a))
  {
  }

  lemma {:induction false} QueuedAwaitedThrough(s: State, run: seq<Action>)
    requires Inv(s) && QueuedAwaited(s) && Feasible(s, run)
    ensures Inv(Run(s, run)) && QueuedAwaited(Run(s, run))
    decreases |run|
  {
    if run != [] {
      StepKeeps(s, run[0]);
      QueuedAwaitedKept(s, run[0]);
      QueuedAwaitedThrough(Step(s, run[0]), run[1..]);
    }
  }

  // The one call left is running, and whoever waited for it has gone.
  predicate OnlyAnAbandonedOne(s: State) {
    && |Pending(s.calls)| == 1 && Pending(s.calls)[0] < |s.calls|
    && s.calls[Pending(s.calls)[0]].phase.Running?
    && forall i | 0 <= i < |s.calls| :: !s.calls[i].awaited
  }

  // A worker with something queued or running that is not busy has exactly one such call:
  // it runs, its await was cancelled, and nobody waits for any other. So a retry that goes
  // by `busy` queues behind at most that one.
  lemma BusyMissesExactlyWhen(run: seq<Action>)
    requires Feasible(FRESH, run)
    ensures var s := Run(FRESH, run);
      !Busy(s) && Pending(s.calls) != [] <==> OnlyAnAbandonedOne(s)
  {
    QueuedAwaitedThrough(FRESH, run);
    BusyIsAwaited(run);
    var s := Run(FRESH, run);
    var ids := Pending(s.calls);
    PendingAre(s.calls);
    if !Busy(s) && ids != [] {
      var other := ids[|ids| - 1];
      forall k | 0 <= k < |ids| ensures ids[k] < |s.calls| && Newest(s.started, ids[k]) {
        assert ids[k] in ids;
      }
      assert other == ids[0];
    }
  }
}

module SdkWorker {
  import opened CrossingModel

  datatype Accepted = Submitted(id: nat) | WorkerStoppedError

  class Worker {
    var active: nat
    var stopped: bool
    var calls: seq<Call>            // the executor's own queue
    ghost var s: State

    ghost predicate Valid()
      reads this
    {
      s.active == active && s.stopped == stopped && s.calls == calls && Inv(s)
    }

    constructor ()
      ensures Valid() && s == FRESH
    {
      active, stopped, calls, s := 0, false, [], FRESH;
    }

    function IsBusy(): (b: bool)
      requires Valid()
      reads this
      ensures b <==> Busy(s)
    {
      active > 0
    }

    // `run` up to its await.
    method Submit() returns (r: Accepted)
      requires Valid()
      modifies this
      ensures Valid() && s == Step(old(s), CrossingModel.Submit)
      ensures r == if old(stopped) then WorkerStoppedError else Submitted(|old(calls)|)
    {
      StepKeeps(s, CrossingModel.Submit);
      s := Step(s, CrossingModel.Submit);
      if stopped {
        return WorkerStoppedError;
      }
      r := Submitted(|calls|);
      active := active + 1;
      calls := calls + [Call(Queued, true)];
    }

    // The await comes back with the call's result.
    method Resume(id: nat)
      requires Valid() && Enabled(s, CrossingModel.Resume(id))
      modifies this
      ensures Valid() && s == Step(old(s), CrossingModel.Resume(id))
    {
      StepKeeps(s, CrossingModel.Resume(id));
      AwaitedPositive(calls, id);
      s := Step(s, CrossingModel.Resume(id));
      calls := calls[id := calls[id].(awaited := false)];
      active := active - 1;
    }

    // The await is cancelled: a call still queued is dropped, a running one runs on.
    method Cancel(id: nat)
      requires Valid() && Enabled(s, CrossingModel.Cancel(id))
      modifies this
      ensures Valid() && s == Step(old(s), CrossingModel.Cancel(id))
      ensures old(At(s, id, Running)) ==> At(s, id, Running)
    {
      StepKeeps(s, CrossingModel.Cancel(id));
      AwaitedPositive(calls, id);
      s := Step(s, CrossingModel.Cancel(id));
      var call := calls[id].(awaited := false);
      calls := calls[id := if call.phase.Queued? then call.(phase := Dropped) else call];
      active := active - 1;
    }

    // `aclose` up to the join. Idempotent.
    method Stop()
      requires Valid()
      modifies this
      ensures Valid() && stopped && |calls| == |old(calls)| && active == old(active)
      ensures forall i | 0 <= i < |calls| && !old(calls)[i].phase.Queued? :: calls[i] == old(calls)[i]
      ensures forall i | 0 <= i < |calls| :: !calls[i].phase.Queued?
      ensures s == if old(stopped) then old(s) else Step(old(s), CrossingModel.Stop)
    {
      if stopped {
        return;
      }
      StepKeeps(s, CrossingModel.Stop);
      s := Step(s, CrossingModel.Stop);
      stopped := true;
      calls := Drained(calls);
    }
  }
}
