// One direction of the audio bridge: a deque bounded by `backlog`, filled by one
// thread in separate statements (check the length, count a drop, append) and emptied
// by another with an atomic `popleft`. The history fields record what happened to
// every frame ever appended; the running program keeps only the first four fields.
module BoundedLane {

  // Where the filling thread stands inside its own three statements.
  datatype Filling<+T> =
    | AtRest
    | CountingDrop(frame: T)
    | Appending(frame: T, sawFull: bool)

  datatype Lane<+T> = Lane(
    backlog: nat,
    queue: seq<T>,
    dropped: nat,
    filling: Filling<T>,
    appended: seq<T>,   // every frame ever appended, in order
    fates: seq<bool>,   // for each frame that left, in order: true popped, false evicted
    taken: seq<T>,      // what the emptying thread received
    relieved: nat       // appends whose length check saw full but found room after all
  )

  function Empty<T>(backlog: nat): Lane<T> {
    Lane(backlog, [], 0, AtRest, [], [], [], 0)
  }

  // `if len(queue) == backlog`, the filling thread's first statement.
  function Check<T>(l: Lane<T>, frame: T): Lane<T> {
    l.(filling := if |l.queue| == l.backlog then CountingDrop(frame) else Appending(frame, false))
  }

  // `dropped += 1`, its second one, only when the check saw a full queue.
  function CountDrop<T>(l: Lane<T>): Lane<T>
    requires l.filling.CountingDrop?
  {
    l.(dropped := l.dropped + 1, filling := Appending(l.filling.frame, true))
  }

  // `deque(maxlen=backlog).append`: atomic, and it discards the head past the bound.
  function Append<T>(l: Lane<T>): Lane<T>
    requires l.filling.Appending?
  {
    var longer := l.queue + [l.filling.frame];
    var over := |longer| > l.backlog;
    l.(queue := if over then longer[1..] else longer,
       fates := if over then l.fates + [false] else l.fates,
       appended := l.appended + [l.filling.frame],
       relieved := l.relieved + if l.filling.sawFull && !over then 1 else 0,
       filling := AtRest)
  }

  // `popleft`: atomic, and an empty queue is left as it was.
  function Pop<T>(l: Lane<T>): Lane<T> {
    if l.queue == [] then l
    else l.(queue := l.queue[1..], fates := l.fates + [true], taken := l.taken + [l.queue[0]])
  }

  // The three statements run together, as the filling thread does when nothing cuts in.
  function Push<T>(l: Lane<T>, frame: T): Lane<T> {
    var checked := Check(l, frame);
    Append(if checked.filling.CountingDrop? then CountDrop(checked) else checked)
  }

  lemma PushIs<T>(l: Lane<T>, frame: T)
    requires l.filling.AtRest?
    ensures var m := Push(l, frame);
      var longer := l.queue + [frame];
      && m.queue == (if |longer| > l.backlog then longer[1..] else longer)
      && m.dropped == l.dropped + (if |l.queue| == l.backlog then 1 else 0)
      && m.filling.AtRest? && m.backlog == l.backlog
      && m.appended == l.appended + [frame] && m.taken == l.taken
  {
  }

  function Evictions(fates: seq<bool>): nat {
    if fates == [] then 0
    else Evictions(fates[..|fates| - 1]) + if fates[|fates| - 1] then 0 else 1
  }

  // The frames of `items` whose fate was to be popped.
  function Delivered<T>(items: seq<T>, fates: seq<bool>): seq<T>
    requires |items| == |fates|
  {
    if fates == [] then []
    else
      var last := |fates| - 1;
      Delivered(items[..last], fates[..last]) + if fates[last] then [items[last]] else []
  }

  // Conservation: every appended frame is popped, evicted or queued, in that order.
  ghost predicate Conserved<T>(l: Lane<T>) {
    && |l.queue| <= l.backlog
    && |l.fates| <= |l.appended|
    && l.queue == l.appended[|l.fates|..]
    && l.taken == Delivered(l.appended[..|l.fates|], l.fates)
    && l.dropped == Evictions(l.fates) + l.relieved
                    + (if l.filling.Appending? && l.filling.sawFull then 1 else 0)
    && (l.filling.Appending? && !l.filling.sawFull ==> |l.queue| < l.backlog)
  }

  lemma Balance<T>(l: Lane<T>)
    requires Conserved(l)
    ensures |l.appended| == |l.taken| + Evictions(l.fates) + |l.queue|
    ensures l.dropped >= Evictions(l.fates)
    ensures l.filling.AtRest? ==> l.dropped - Evictions(l.fates) == l.relieved
  {
    DeliveredCount(l.appended[..|l.fates|], l.fates);
  }

  lemma {:induction false} DeliveredCount<T>(items: seq<T>, fates: seq<bool>)
    requires |items| == |fates|
    ensures |fates| == |Delivered(items, fates)| + Evictions(fates)
  {
    if fates != [] {
      var last := |fates| - 1;
      DeliveredCount(items[..last], fates[..last]);
    }
  }

  // One more frame leaves: the history grows by it and by nothing else.
  lemma Depart<T>(l: Lane<T>, items: seq<T>, popped: bool)
    requires Conserved(l)
    requires l.appended <= items && |l.fates| < |items|
    ensures Evictions(l.fates + [popped]) == Evictions(l.fates) + if popped then 0 else 1
    ensures items[..|l.fates| + 1][..|l.fates|] == l.appended[..|l.fates|]
    ensures Delivered(items[..|l.fates| + 1], l.fates + [popped])
         == l.taken + if popped then [items[|l.fates|]] else []
  {
    assert (l.fates + [popped])[..|l.fates|] == l.fates;
    assert items[..|l.fates| + 1][..|l.fates|] == l.appended[..|l.fates|];
  }

  lemma CheckKeeps<T>(l: Lane<T>, frame: T)
    requires Conserved(l) && l.filling.AtRest?
    ensures Conserved(Check(l, frame))
  {
  }

  lemma CountDropKeeps<T>(l: Lane<T>)
    requires Conserved(l) && l.filling.CountingDrop?
    ensures Conserved(CountDrop(l))
  {
  }

  lemma AppendKeeps<T>(l: Lane<T>)
    requires Conserved(l) && l.filling.Appending?
    ensures Conserved(Append(l))
  {
    var items := l.appended + [l.filling.frame];
    assert items[..|l.fates|] == l.appended[..|l.fates|];
    assert items[|l.fates|..] == l.queue + [l.filling.frame];
    if |l.queue| + 1 > l.backlog {
      Depart(l, items, false);
      assert items[|l.fates| + 1..] == items[|l.fates|..][1..];
    }
  }

  lemma PopKeeps<T>(l: Lane<T>)
    requires Conserved(l)
    ensures Conserved(Pop(l))
    ensures l.queue != [] ==> Pop(l).taken == l.taken + [l.queue[0]]
  {
    if l.queue != [] {
      Depart(l, l.appended, true);
    }
  }
}
