// The session's own objects, their methods cut at their awaits. What each one changes is
// proved equal to the step of `VideoSession` it stands for; what it reads of the others
// (the pipeline, the worker, the tasks) comes in as a parameter.
module SessionObjects {
  import opened Options
  import opened TapWorker
  import opened VideoSession

  // `PictureWait`: the flag the asking loops on, the generation it asks for, and the task.
  class PictureWait {
    var waiting: bool
    var task: bool
    var generation: nat

    // `start`
    constructor (generation: nat)
      ensures waiting && task && this.generation == generation
    {
      waiting, task, this.generation := true, true, generation;
    }

    // `stop` up to its await: what it says is whether there is a task to cancel.
    method Stop(over: bool) returns (cancel: bool)
      modifies this`waiting, this`task
      ensures !waiting && !task && cancel == (old(task) && !over)
    {
      cancel := task && !over;
      waiting := false;
      task := false;
    }

    // The asking ends by itself.
    method Settle()
      modifies this`waiting
      ensures !waiting
    {
      waiting := false;
    }
  }

  class SessionVideo {
    const wait: PictureWait
    var geometry: bool
    ghost var s: State

    ghost predicate Valid()
      reads this, wait
    {
      && s.asker.waiting == wait.waiting && s.asker.task == wait.task && s.asker.gen == wait.generation
      && s.shown.geometry == geometry
      && Hushed(s) && Shows(s)
    }

    // `arm` returns: the pipeline is up and the asking has begun.
    constructor (generation: nat)
      ensures Valid() && s == Armed(generation) && fresh(wait)
    {
      wait := new PictureWait(generation);
      geometry := false;
      s := Armed(generation);
    }

    ghost method Advance(a: Action)
      requires Hushed(s) && Shows(s) && Enabled(s, a)
      modifies this`s
      ensures s == Step(old(s), a) && Hushed(s) && Shows(s)
    {
      HushedKept(s, a);
      ForwardStep(s, a);
      s := Step(s, a);
    }

    // The asking comes back from `open_video` with an answer, not having been cancelled.
    method OpenAnswered(verdict: Verdict, current: bool)
      requires Valid() && s.asker.at.Opening? && !s.asker.cancelled
      requires s.asker.at.id in s.work.done && s.work.done[s.asker.at.id] == verdict
      requires current == (wait.generation == s.pipe.gen)
      modifies this, wait
      ensures Valid() && s == RunWait(old(s))
      ensures geometry == ((verdict.Fine? && current) || (old(geometry) && !verdict.NoVideo?))
      ensures verdict.Refused? ==>
        wait.waiting == old(wait.waiting) && (wait.waiting ==> s.asker.at.Sleeping?)
      ensures (verdict.Fine? && current) || verdict.NoVideo? ==> !wait.waiting
      ensures verdict.Broken? ==> s.asker.at == Over(true)
    {
      Advance(StepWait);
      match verdict
      case NoVideo =>
        var cancel := wait.Stop(false);
        geometry := false;
      case Fine =>
        if current {
          wait.Settle();
          geometry := true;
        }
      case _ =>
    }

    // `_stalled` up to its first await. It says whether there is a task to wait for.
    method Stalled(over: bool) returns (await_: bool)
      requires Valid() && Enabled(s, DogFires) && over == s.asker.at.Over?
      modifies this`s, wait`waiting, wait`task
      ensures Valid() && s == Fire(old(s)) && !wait.waiting
      ensures await_ == s.guard.at.Waiting?
    {
      Advance(DogFires);
      await_ := wait.Stop(over);
    }

    // `_lose`, entered by the reaction once the tap is closed.
    method Lose()
      requires Valid() && DogReady(s) && s.guard.at.Closing? && !s.guard.cancelled
      modifies this, wait`waiting, wait`task
      ensures Valid() && s == RunDog(old(s)) && !geometry
    {
      Advance(StepDog);
      var cancel := wait.Stop(true);
      geometry := false;
    }

    // `aclose` begins the same way the reaction does.
    method Aclose(over: bool) returns (await_: bool)
      requires Valid() && s.closer.Idle? && CloserReady(s) && over == s.asker.at.Over?
      modifies this`s, wait`waiting, wait`task
      ensures Valid() && s == RunCloser(old(s)) && !wait.waiting
      ensures await_ == s.closer.Hushing?
    {
      Advance(StepCloser);
      await_ := wait.Stop(over);
    }
  }

  // `MediaSession`: its flag, and the stop reason of its bridge.
  class MediaSession {
    const video: SessionVideo
    var closed: bool
    var stopReason: string         // the bridge's

    ghost predicate Valid()
      reads this, video, video.wait
    {
      video.Valid() && video.s.shown.closed == closed && video.s.shown.voiceLost == (stopReason != "")
    }

    constructor (video: SessionVideo)
      requires video.Valid() && !video.s.shown.closed && !video.s.shown.voiceLost
      ensures Valid() && this.video == video && !closed
    {
      this.video, closed, stopReason := video, false, "";
    }

    // `_state`, test by test.
    function State(): (state: SessionState)
      requires Valid()
      reads this, video, video.wait
      ensures state == Reported(video.s)
      ensures state.CLOSED? <==> closed
      ensures state.WAITING? <==> !closed && stopReason == "" && video.wait.waiting
      ensures state.OPEN? <==> !closed && stopReason == "" && !video.wait.waiting && video.geometry
    {
      if closed then CLOSED
      else if stopReason != "" then DEGRADED
      else if video.wait.waiting then WAITING
      else if !video.geometry then DEGRADED
      else OPEN
    }

    // `aclose` up to the teardown; false when it had been closed already.
    method Close() returns (first: bool)
      requires Valid()
      modifies this`closed, video`s
      ensures Valid() && closed && first == !old(closed)
      ensures video.s == if first then Step(old(video.s), CloseSession) else old(video.s)
    {
      first := !closed;
      if first {
        closed := true;
        video.Advance(CloseSession);
      }
    }

    // The bridge is given a reason to stop; a second one changes nothing.
    method VoiceStopped(reason: string)
      requires Valid() && reason != ""
      modifies this`stopReason, video`s
      ensures Valid() && video.s == Step(old(video.s), VoiceStops)
      ensures stopReason == if old(stopReason) == "" then reason else old(stopReason)
      ensures Rank(Reported(video.s)) >= Rank(Reported(old(video.s)))
    {
      ForwardStep(video.s, VoiceStops);
      if stopReason == "" {
        stopReason := reason;
      }
      video.Advance(VoiceStops);
    }
  }
}
