// The call book: a map from ids to entries, the order they came in, and the rings. Reports
// add entries; what a command learns changes the side of one that is there, or nothing.
module CallEntries {

  import opened Options

  // A dialog's id is compared and never read.
  type CallId = nat

  datatype Direction = INCOMING | OUTGOING

  // All that is read of the SDK's enumeration: is media up, is the dialog over.
  datatype CallState = Early(stage: nat) | Streaming | Ended

  datatype CallHandle = CallHandle(id: CallId, leg: nat)
  datatype Tracked = Tracked(handle: CallHandle, state: CallState, direction: Direction)
  datatype CallView = CallView(id: CallId, state: CallState, direction: Direction)

  datatype Entries = Entries(
    order: seq<CallId>,                 // the keys, as they appeared
    calls: map<CallId, Tracked>,
    rang: set<CallId>)

  ghost predicate Sound(b: Entries) {
    && (forall i | 0 <= i < |b.order| :: b.order[i] in b.calls)
    && (forall i, j | 0 <= i < j < |b.order| :: b.order[i] != b.order[j])
    && (forall id | id in b.calls :: id in b.order && b.calls[id].handle.id == id)
  }

  const NO_CALLS := Entries([], map[], {})

  type Book = b: Entries | Sound(b) witness NO_CALLS

  function Side(b: Book, id: CallId, guess: Direction): Direction {
    if id in b.rang then INCOMING else guess
  }

  // `record`: the book afterwards, and whether it was news.
  function Recorded(b: Book, handle: CallHandle, state: CallState, guess: Direction,
                    refineOnly: bool): (r: (Book, bool))
    ensures r.0.rang == b.rang
    ensures r.0.calls.Keys == b.calls.Keys + if refineOnly then {} else {handle.id}
  {
    var entry := Tracked(handle, state, Side(b, handle.id, guess));
    if handle.id in b.calls then
      (b.(calls := b.calls[handle.id := entry]), b.calls[handle.id].state != state)
    else if refineOnly then (b, false)
    else
      var c := Entries(b.order + [handle.id], b.calls[handle.id := entry], b.rang);
      assert forall i | 0 <= i < |b.order| :: c.order[i] == b.order[i];
      assert c.order[|b.order|] == handle.id;
      (c, true)
  }

  // `mark_incoming`
  function Marked(b: Book, id: CallId): Book {
    var c := b.(rang := b.rang + {id});
    if id in b.calls then c.(calls := b.calls[id := b.calls[id].(direction := INCOMING)]) else c
  }

  function Init(ids: seq<CallId>): seq<CallId>
    requires ids != []
  {
    ids[..|ids| - 1]
  }

  function Last(ids: seq<CallId>): CallId
    requires ids != []
  {
    ids[|ids| - 1]
  }

  // What is left of a list in the same order.
  predicate Within(part: seq<CallId>, order: seq<CallId>) {
    part == [] || (order != []
      && ((Last(part) == Last(order) && Within(Init(part), Init(order))) || Within(part, Init(order))))
  }

  ghost predicate Once(order: seq<CallId>) {
    forall i, j | 0 <= i < j < |order| :: order[i] != order[j]
  }

  function Without(order: seq<CallId>, id: CallId): (rest: seq<CallId>)
    ensures forall x :: x in rest <==> x in order && x != id
    ensures Within(rest, order)
    ensures Once(order) ==> Once(rest)
  {
    if order == [] then []
    else
      var rest := Without(Init(order), id);
      if Last(order) == id then rest
      else
        assert Init(rest + [Last(order)]) == rest;
        assert order == Init(order) + [Last(order)];
        assert forall i | 0 <= i < |rest| :: rest[i] in rest && rest[i] in Init(order);
        rest + [Last(order)]
  }

  lemma WithoutIsSound(b: Book, id: CallId)
    ensures Sound(Entries(Without(b.order, id), b.calls - {id}, b.rang - {id}))
  {
    var rest := Without(b.order, id);
    assert forall i | 0 <= i < |rest| :: rest[i] in rest && rest[i] in b.order;
    assert forall x | x in b.order :: x in b.calls;
  }

  // `forget`
  function Forgotten(b: Book, id: CallId): (c: Book)
    ensures c.calls == b.calls - {id} && c.rang == b.rang - {id}
  {
    WithoutIsSound(b, id);
    Entries(Without(b.order, id), b.calls - {id}, b.rang - {id})
  }

  function ViewOf(b: Book, i: nat): CallView
    requires i < |b.order|
  {
    var id := b.order[i];
    CallView(id, b.calls[id].state, b.calls[id].direction)
  }

  function Views(b: Book): seq<CallView> {
    seq(|b.order|, i requires 0 <= i < |b.order| => ViewOf(b, i))
  }

  predicate Shows(b: Book, view: CallView) {
    view.id in b.calls && view.state == b.calls[view.id].state
    && view.direction == b.calls[view.id].direction
  }

  // One view per live dialog, and each says what the book says.
  lemma ViewsAreTheBook(b: Book)
    ensures |Views(b)| == |b.order| && forall i | 0 <= i < |b.order| :: Views(b)[i].id == b.order[i]
    ensures forall id :: id in b.calls <==> exists i | 0 <= i < |Views(b)| :: Views(b)[i].id == id
    ensures forall i | 0 <= i < |Views(b)| :: Shows(b, Views(b)[i])
  {
    forall id | id in b.calls ensures exists i | 0 <= i < |Views(b)| :: Views(b)[i].id == id {
      var i :| 0 <= i < |b.order| && b.order[i] == id;
      assert Views(b)[i].id == id;
    }
  }

  predicate MediaUp(b: Book, id: CallId) { id in b.calls && b.calls[id].state.Streaming? }

  // It stands in the list, and nothing after it is streaming.
  ghost predicate Newest(b: Book, id: CallId, n: nat)
    requires n <= |b.order|
  {
    exists k | 0 <= k < n ::
      b.order[k] == id && (forall j | k < j < n :: !MediaUp(b, b.order[j]))
  }

  // `streaming`: of the first n dialogs, the ids whose media is up, as they appeared.
  function StreamingOf(b: Book, n: nat): (ids: seq<CallId>)
    requires n <= |b.order|
    ensures forall id :: id in ids <==> id in b.order[..n] && MediaUp(b, id)
    ensures Within(ids, b.order[..n])
    ensures ids != [] ==> Newest(b, Last(ids), n)
  {
    if n == 0 then []
    else
      var id, ids := b.order[n - 1], StreamingOf(b, n - 1);
      assert b.order[..n] == b.order[..n - 1] + [id];
      assert Init(b.order[..n]) == b.order[..n - 1];
      if MediaUp(b, id) then
        assert Init(ids + [id]) == ids;
        ids + [id]
      else ids
  }

  function StreamingIds(b: Book): seq<CallId> { StreamingOf(b, |b.order|) }

  // The entries of some of its dialogs.
  function Entered(b: Book, ids: seq<CallId>): seq<Tracked>
    requires forall id | id in ids :: id in b.calls
  {
    if ids == [] then [] else Entered(b, Init(ids)) + [b.calls[Last(ids)]]
  }

  lemma EnteredNext(b: Book, n: nat)
    requires n < |b.order|
    ensures var tracked := b.calls[b.order[n]];
      Entered(b, StreamingOf(b, n + 1))
        == Entered(b, StreamingOf(b, n)) + if tracked.state.Streaming? then [tracked] else []
  {
    var ids := StreamingOf(b, n);
    assert Init(ids + [b.order[n]]) == ids;
  }

  // Exactly the live dialogs with media up, oldest first; and the last of
  // them, which an offer naming no call is given, is the newest: none that appeared
  // after it is streaming.
  lemma StreamingIsTheBook(b: Book)
    ensures var ids := StreamingIds(b);
      && (forall id :: id in ids <==> MediaUp(b, id))
      && Within(ids, b.order)
      && (ids != [] ==> Newest(b, Last(ids), |b.order|))
  {
    assert b.order[..|b.order|] == b.order;
  }

  // Whichever side a dialog reads, it is the panel's once the panel rang on it.
  ghost predicate Sided(b: Book) {
    forall id | id in b.calls && id in b.rang :: b.calls[id].direction.INCOMING?
  }

  // A report of a dialog already known changes its side exactly when the guess differs
  // from what the book says and the panel has not rung on it.
  lemma RecordTurnsExactlyWhen(b: Book, handle: CallHandle, state: CallState, guess: Direction,
                               refineOnly: bool)
    requires handle.id in b.calls && Sided(b)
    ensures var c := Recorded(b, handle, state, guess, refineOnly).0;
      c.calls[handle.id].direction != b.calls[handle.id].direction
      <==> handle.id !in b.rang && guess != b.calls[handle.id].direction
  {
  }
}

module Calls {
  import opened Options
  import opened CallEntries

  datatype UnknownCallError = UnknownCallError(id: CallId)

  class CallBook {
    var order: seq<CallId>
    var calls: map<CallId, Tracked>
    var rang: set<CallId>

    ghost predicate Valid()
      reads this
    {
      Sound(Entries(order, calls, rang))
    }

    ghost function Contents(): Book
      requires Valid()
      reads this
    {
      Entries(order, calls, rang)
    }

    constructor ()
      ensures Valid() && Contents() == NO_CALLS
    {
      order, calls, rang := [], map[], {};
    }

    // The book after one report, and whether listeners are to hear of it.
    method Record(handle: CallHandle, state: CallState, direction: Direction, refineOnly: bool)
      returns (news: bool)
      requires Valid()
      modifies this
      ensures Valid() && (Contents(), news)
        == Recorded(old(Contents()), handle, state, direction, refineOnly)
      ensures news <==> if handle.id in old(calls) then old(calls)[handle.id].state != state else !refineOnly
      ensures handle.id in calls ==>
        calls[handle.id] == Tracked(handle, state, if handle.id in rang then INCOMING else direction)
      ensures handle.id !in calls ==> refineOnly
    {
      ghost var after := Recorded(Contents(), handle, state, direction, refineOnly);
      var side := if handle.id in rang then INCOMING else direction;
      if handle.id !in calls {
        if refineOnly {
          return false;
        }
        order := order + [handle.id];
        calls := calls[handle.id := Tracked(handle, state, side)];
        assert Entries(order, calls, rang) == after.0;
        return true;
      }
      var tracked := calls[handle.id];
      calls := calls[handle.id := tracked.(handle := handle, direction := side)];
      news := tracked.state != state;
      if news {
        calls := calls[handle.id := calls[handle.id].(state := state)];
      }
      assert Entries(order, calls, rang) == after.0;
    }

    // The panel rang on this id, whatever was assumed.
    method MarkIncoming(id: CallId)
      requires Valid()
      modifies this
      ensures Valid() && Contents() == Marked(old(Contents()), id)
      ensures id in rang && calls.Keys == old(calls).Keys && (id in calls ==> calls[id].direction.INCOMING?)
    {
      ghost var after := Marked(Contents(), id);
      rang := rang + {id};
      if id in calls {
        calls := calls[id := calls[id].(direction := INCOMING)];
      }
      assert Entries(order, calls, rang) == after;
    }

    function Find(id: CallId): (found: Option<Tracked>)
      reads this
      ensures found.Some? <==> id in calls
      ensures found.Some? ==> found.value == calls[id]
    {
      if id in calls then Some(calls[id]) else None
    }

    method Require(id: CallId) returns (r: Result<Tracked, UnknownCallError>)
      ensures r == if id in calls then Ok(calls[id]) else Err(UnknownCallError(id))
    {
      r := if id in calls then Ok(calls[id]) else Err(UnknownCallError(id));
    }

    // An entry's handle, which carries the entry's id, or the unknown-call error.
    method Handle(id: CallId) returns (r: Result<CallHandle, UnknownCallError>)
      requires Valid()
      ensures id in calls <==> r.Ok?
      ensures r.Ok? ==> r.value == calls[id].handle && r.value.id == id
      ensures r.Err? ==> r.error == UnknownCallError(id)
    {
      var tracked := Require(id);
      match tracked
      case Ok(entry) => r := Ok(entry.handle);
      case Err(error) => r := Err(error);
    }

    method Forget(id: CallId)
      requires Valid()
      modifies this
      ensures Valid() && Contents() == Forgotten(old(Contents()), id)
    {
      ghost var after := Forgotten(Contents(), id);
      order := Without(order, id);
      calls := calls - {id};
      rang := rang - {id};
      assert Entries(order, calls, rang) == after;
    }

    method Clear()
      modifies this
      ensures Valid() && Contents() == NO_CALLS
    {
      order, calls, rang := [], map[], {};
    }

    method Streaming() returns (found: seq<Tracked>)
      requires Valid()
      ensures found == Entered(Contents(), StreamingIds(Contents()))
    {
      found := [];
      ghost var b := Contents();
      for i := 0 to |order|
        invariant found == Entered(b, StreamingOf(b, i))
      {
        EnteredNext(b, i);
        var tracked := calls[order[i]];
        if tracked.state.Streaming? {
          found := found + [tracked];
        }
      }
    }

    method Shown() returns (views: seq<CallView>)
      requires Valid()
      ensures views == CallEntries.Views(Contents())
    {
      views := [];
      for i := 0 to |order|
        invariant views == CallEntries.Views(Contents())[..i]
      {
        views := views + [CallView(order[i], calls[order[i]].state, calls[order[i]].direction)];
      }
    }
  }
}
