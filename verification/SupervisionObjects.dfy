// The holder, the factory and the supervisor as objects, cut at their awaits. What each
// changes is proved to be the step of `SupervisionModel` it stands for; where the loop is
// suspended stays in the model's state.
module Holder {
  import opened Options
  import opened SupervisionModel

  datatype NoClientError = NoClientError

  class ClientHolder {
    var client: Option<nat>

    constructor ()
      ensures client == None
    {
      client := None;
    }

    method Set(id: nat)
      modifies this
      ensures client == Some(id)
    {
      client := Some(id);
    }

    // Whatever client was set last.
    method Current() returns (r: Result<nat, NoClientError>)
      ensures r == if client.Some? then Ok(client.value) else Err(NoClientError)
    {
      r := if client.Some? then Ok(client.value) else Err(NoClientError);
    }
  }

  // Built with a client in hand, which its first `Make` gives out; later ones build anew.
  class RebuildingFactory {
    const holder: ClientHolder
    var pending: seq<nat>
    var built: nat
    ghost var handed: seq<nat>

    ghost predicate Is(factory: Factory)
      reads this
    {
      && pending == (if factory.pending then [0] else []) && built == factory.built
      && handed == factory.handed
    }

    constructor (holder: ClientHolder)
      modifies holder
      ensures this.holder == holder && Is(BOOT.factory) && holder.client == BOOT.world.holder
    {
      this.holder := holder;
      pending, built, handed := [0], 1, [];
      new;
      holder.Set(0);
    }

    // None when the build raised: nobody is pointed at anything new.
    method Make(buildable: bool) returns (made: Option<nat>)
      requires |pending| <= 1
      modifies this, holder
      ensures made.Some? <==> old(pending) != [] || buildable
      ensures made.Some? ==> handed == old(handed) + [made.value] && pending == []
      ensures made.None? ==> handed == old(handed) && pending == old(pending)
      ensures if made.Some? && old(pending) == []
              then made.value == old(built) && built == old(built) + 1 && holder.client == made
              else built == old(built) && holder.client == old(holder.client)
      ensures old(pending) != [] ==> made == Some(old(pending)[0])
    {
      if pending != [] {
        made := Some(pending[|pending| - 1]);
        pending := pending[..|pending| - 1];
      } else if buildable {
        made := Some(built);
        built := built + 1;
        holder.Set(made.value);
      } else {
        return None;
      }
      handed := handed + [made.value];
    }
  }
}

module Supervision {
  import opened Options
  import opened SupervisionModel
  import opened SupervisionLaws
  import opened Holder

  class RegistrationSupervisor {
    const factory: RebuildingFactory
    var step: nat
    var stopped: bool
    var client: Option<nat>
    var task: bool                // `_task` names the loop's task
    var published: seq<Outcome>   // what the `publish` hook was handed
    ghost var s: State

    ghost predicate Valid()
      reads this, factory, factory.holder
    {
      && factory.Is(s.factory) && factory.holder.client == s.world.holder
      && s.own == Own(step, stopped, client) && published == s.world.outcomes
      && task == !s.loop.at.Unlaunched?
      && Single(s) && Turns(s) && Told(s)
    }

    constructor (factory: RebuildingFactory)
      requires factory.Is(BOOT.factory) && factory.holder.client == BOOT.world.holder
      ensures Valid() && s == BOOT && this.factory == factory
    {
      this.factory := factory;
      step, stopped, client, task, published, s := 0, false, None, false, [], BOOT;
    }

    ghost method Advance(a: Action)
      requires Single(s) && Turns(s) && Told(s) && Enabled(s, a)
      modifies this`s
      ensures s == Step(old(s), a) && Single(s) && Turns(s) && Told(s)
    {
      SingleKept(s, a);
      TurnsKept(s, a);
      ToldKept(s, a);
      s := Step(s, a);
    }

    // What a command resolves to through the holder: never nothing, for the first client is
    // built before anybody asks; always the newest built; and the supervisor's own client
    // whenever it has one.
    method Resolve() returns (r: Result<nat, NoClientError>)
      requires Valid()
      ensures r.Ok? && r.value == s.factory.built - 1
      ensures client.Some? ==> client == Some(r.value)
      ensures s.world.live <= {r.value}
    {
      r := factory.holder.Current();
    }

    // The head of the loop, from the first step or from a wait that is over.
    method TryAgain(buildable: bool)
      requires factory.Is(s.factory) && factory.holder.client == s.world.holder
      requires |factory.pending| <= 1 && stopped == s.own.stopped
      modifies this`client, factory, factory.holder
      ensures var t := Attempt(s, buildable);
        && factory.Is(t.factory) && factory.holder.client == t.world.holder
        && client == if t.loop.at.Starting? && !stopped then t.own.client else old(client)
    {
      if !stopped {
        var made := factory.Make(buildable);
        if made.Some? {
          client := made;
        }
      }
    }

    // The task's first step.
    method Begin(buildable: bool)
      requires Valid() && s.loop == Loop(Ready, false, s.loop.client)
      modifies this, factory, factory.holder
      ensures Valid() && s == Step(old(s), Resume(Fine, false, buildable))
    {
      TryAgain(buildable);
      Advance(Resume(Fine, false, buildable));
    }

    // `client.start` came back from the worker.
    method StartReturned(reply: Reply)
      requires Valid() && s.loop == Loop(Starting, false, s.loop.client)
      modifies this
      ensures Valid() && s == Step(old(s), Resume(reply, false, true))
      ensures published == old(published) + [if reply.Fine? then Up else Down]
      ensures s.loop.at.Connecting? <==> reply.Fine?
      ensures s.loop.at.Releasing? <==> !reply.Fine?
      ensures step == if reply.Fine? then 0 else old(step)
    {
      if reply.Fine? {
        published := published + [Up];
        step := 0;
      } else {
        published := published + [Down];
      }
      Advance(Resume(reply, false, true));
    }

    // One refresh came back: it holds the binding only if the client says so too.
    method Refreshed(reply: Reply, registered: bool)
      requires Valid() && s.loop == Loop(Refreshing, false, s.loop.client)
      modifies this
      ensures Valid() && s == Step(old(s), Resume(reply, registered, true))
      ensures published == old(published) + [if reply.Fine? && registered then Up else Down]
      ensures s.loop.at.Releasing? <==> !reply.Fine? || !registered
      ensures s.loop.at.Holding? <==> reply.Fine? && registered
    {
      published := published + [if reply.Fine? && registered then Up else Down];
      Advance(Resume(reply, registered, true));
    }

    // `_release` came back: publish how it went and give the delay that
    // follows. Nothing is said of a `stop` that raised what it should not.
    method Released(reply: Reply, obtained: bool) returns (delay: Option<nat>)
      requires Valid() && s.loop.at.Releasing? && !s.loop.cancelled
      requires s.loop.at.ran || reply.Broke?
      modifies this
      ensures Valid() && s == Step(old(s), Resume(reply, obtained, true))
      ensures delay == if reply.Broke? then None else Some(CurrentDelay(step))
      ensures published == old(published)
        + if reply.Broke? then [] else [Release(reply.Fine? && obtained)]
    {
      if reply.Broke? {
        delay := None;
      } else {
        published := published + [Release(reply.Fine? && obtained)];
        delay := Some(BACKOFF_S[if step < |BACKOFF_S| - 1 then step else |BACKOFF_S| - 1]);
      }
      Advance(Resume(reply, obtained, true));
    }

    // A backoff sleep is over: the same again while the worker is busy, else try again.
    method Waited(busy: bool, buildable: bool) returns (again: Option<nat>)
      requires Valid() && s.loop.at.Backing? && !s.loop.cancelled
      modifies this, factory, factory.holder
      ensures Valid() && s == Step(old(s), Resume(Fine, busy, buildable))
      ensures again == if busy then Some(old(s).loop.at.delay) else None
      ensures step == if busy then old(step) else old(step) + 1
    {
      if !stopped && busy {
        again := Some(BACKOFF_S[if step < |BACKOFF_S| - 1 then step else |BACKOFF_S| - 1]);
      } else {
        again := None;
        ghost var was := s;
        s := s.(own := s.own.(step := s.own.step + 1));
        step := step + 1;
        TryAgain(buildable);
        s := was;
      }
      Advance(Resume(Fine, busy, buildable));
    }

    // `start`: idempotent, and never awaited.
    method Start()
      requires Valid()
      modifies this
      ensures Valid() && task && s == if old(task) then old(s) else Step(old(s), Launch)
    {
      if task {
        return;
      }
      task := true;
      Advance(Launch);
    }

    // `stop`, up to its first await; a second one returns at once.
    method Stop() returns (cancels: bool)
      requires Valid()
      modifies this
      ensures Valid() && s == Step(old(s), StopCalled) && stopped
      ensures cancels == (task && !old(stopped))
    {
      cancels := task && !stopped;
      if !stopped && !task {
        client := None;
      }
      stopped := true;
      Advance(StopCalled);
    }

    // The loop has ended: raise what it raised, or take the client back to release it.
    method Joined(died: bool) returns (last: Option<nat>)
      requires Valid() && s.stopper.Joining? && Finished(s.loop.at) && died == s.loop.at.Died?
      modifies this
      ensures Valid() && s == Step(old(s), StopResumes(Fine, false))
      ensures last == if died then None else old(client)
      ensures last.Some? <==> s.stopper.Letting?
    {
      last := None;
      if !died {
        last := client;
        client := None;
      }
      Advance(StopResumes(Fine, false));
    }

    // The last release came back.
    method LetGo(reply: Reply, obtained: bool)
      requires Valid() && s.stopper.Letting? && (s.stopper.ran || reply.Broke?)
      modifies this
      ensures Valid() && s == Step(old(s), StopResumes(reply, obtained))
      ensures published == if reply.Broke? then old(published)
                           else old(published) + [Release(reply.Fine? && obtained)]
    {
      if !reply.Broke? {
        published := published + [Release(reply.Fine? && obtained)];
      }
      Advance(StopResumes(reply, obtained));
    }
  }
}
