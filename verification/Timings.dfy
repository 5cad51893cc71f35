// What the clock thread's callbacks cost: a fixed array and a moving index, read as
// if the whole history had been kept. Durations are exact reals, and 0.99 is 99/100.
module OrderStatistics {

  predicate Ascending(s: seq<real>) {
    forall i, j | 0 <= i < j < |s| :: s[i] <= s[j]
  }

  function Insert(x: real, s: seq<real>): (r: seq<real>)
    requires Ascending(s)
    ensures Ascending(r) && |r| == |s| + 1
    ensures r[0] == if s == [] || x <= s[0] then x else s[0]
  {
    if s == [] || x <= s[0] then [x] + s
    else [s[0]] + Insert(x, s[1..])
  }

  lemma {:induction false} InsertKeeps(x: real, s: seq<real>)
    requires Ascending(s)
    ensures multiset(Insert(x, s)) == multiset(s) + multiset{x}
  {
    if s != [] && x > s[0] {
      InsertKeeps(x, s[1..]);
      assert s == [s[0]] + s[1..];
    }
  }

  // `sorted(...)`
  function Sorted(s: seq<real>): (r: seq<real>)
    ensures Ascending(r) && |r| == |s|
    ensures multiset(r) == multiset(s)
  {
    if s == [] then []
    else
      assert s == [s[0]] + s[1..];
      InsertKeeps(s[0], Sorted(s[1..]));
      Insert(s[0], Sorted(s[1..]))
  }

  lemma FirstIsLeast(s: seq<real>, t: seq<real>)
    requires Ascending(s) && Ascending(t) && multiset(s) == multiset(t) && s != [] && t != []
    ensures s[0] == t[0]
  {
    assert s[0] in multiset(t) && t[0] in multiset(s);
  }

  lemma WithoutFirst(s: seq<real>)
    requires s != []
    ensures multiset(s[1..]) == multiset(s) - multiset{s[0]}
  {
    assert s == [s[0]] + s[1..];
  }

  // There is one ascending arrangement of a multiset.
  lemma {:induction false} AscendingIsUnique(s: seq<real>, t: seq<real>)
    requires Ascending(s) && Ascending(t) && multiset(s) == multiset(t)
    ensures s == t
  {
    assert |s| == |multiset(s)| == |multiset(t)| == |t|;
    if s != [] {
      FirstIsLeast(s, t);
      WithoutFirst(s);
      WithoutFirst(t);
      AscendingIsUnique(s[1..], t[1..]);
      assert s == [s[0]] + s[1..] && t == [t[0]] + t[1..];
    }
  }

  function NotAbove(s: seq<real>, bound: real): nat {
    if s == [] then 0 else NotAbove(s[1..], bound) + if s[0] <= bound then 1 else 0
  }

  function NotBelow(s: seq<real>, bound: real): nat {
    if s == [] then 0 else NotBelow(s[1..], bound) + if s[0] >= bound then 1 else 0
  }

  lemma {:induction false} InsertCounts(x: real, s: seq<real>, bound: real)
    requires Ascending(s)
    ensures NotAbove(Insert(x, s), bound) == NotAbove(s, bound) + if x <= bound then 1 else 0
    ensures NotBelow(Insert(x, s), bound) == NotBelow(s, bound) + if x >= bound then 1 else 0
  {
    if s == [] || x <= s[0] {
      assert ([x] + s)[1..] == s;
    } else {
      var rest := Insert(x, s[1..]);
      InsertCounts(x, s[1..], bound);
      assert ([s[0]] + rest)[1..] == rest;
    }
  }

  lemma {:induction false} SortedCounts(s: seq<real>, bound: real)
    ensures NotAbove(Sorted(s), bound) == NotAbove(s, bound)
    ensures NotBelow(Sorted(s), bound) == NotBelow(s, bound)
  {
    if s != [] {
      SortedCounts(s[1..], bound);
      InsertCounts(s[0], Sorted(s[1..]), bound);
    }
  }

  lemma {:induction false} AscendingCounts(s: seq<real>, at: nat, bound: real)
    requires Ascending(s) && at < |s| && s[at] == bound
    ensures NotAbove(s, bound) >= at + 1
    ensures NotBelow(s, bound) >= |s| - at
  {
    if at > 0 {
      AscendingCounts(s[1..], at - 1, bound);
    } else {
      AllNotBelow(s, bound);
    }
  }

  lemma {:induction false} AllNotBelow(s: seq<real>, bound: real)
    requires forall i | 0 <= i < |s| :: s[i] >= bound
    ensures NotBelow(s, bound) == |s|
  {
    if s != [] { AllNotBelow(s[1..], bound); }
  }

  function Min(a: int, b: int): int { if a <= b then a else b }

  // The sample at rank 99 n / 100 of those kept in order; of none, 0.0.
  function P99(kept: seq<real>): real {
    if kept == [] then 0.0
    else Sorted(kept)[Min(|kept| - 1, 99 * |kept| / 100)]
  }

  // An order statistic: it is one of the samples, at least floor(0.99 k) + 1 of the k
  // (never more than k) are not above it, and the rest of them are not below it.
  lemma P99IsAnOrderStatistic(kept: seq<real>)
    requires kept != []
    ensures P99(kept) in multiset(kept)
    ensures NotAbove(kept, P99(kept)) >= Min(|kept|, 99 * |kept| / 100 + 1)
    ensures NotBelow(kept, P99(kept)) >= |kept| - Min(|kept| - 1, 99 * |kept| / 100)
  {
    var ordered := Sorted(kept);
    var at := Min(|kept| - 1, 99 * |kept| / 100);
    assert ordered[at] in multiset(ordered);
    AscendingCounts(ordered, at, ordered[at]);
    SortedCounts(kept, ordered[at]);
  }

  // The running maximum, which starts at 0.0.
  function MaxOf(history: seq<real>): real {
    if history == [] then 0.0
    else
      var last := history[|history| - 1];
      var before := MaxOf(history[..|history| - 1]);
      if last > before then last else before
  }

  lemma MaxGrows(history: seq<real>, x: real)
    ensures MaxOf(history + [x]) == if x > MaxOf(history) then x else MaxOf(history)
  {
    assert (history + [x])[..|history|] == history;
  }

  lemma {:induction false} MaxIsLeastBound(history: seq<real>)
    ensures MaxOf(history) >= 0.0
    ensures forall i | 0 <= i < |history| :: history[i] <= MaxOf(history)
    ensures MaxOf(history) == 0.0 || exists i | 0 <= i < |history| :: history[i] == MaxOf(history)
  {
    if history != [] {
      var before := history[..|history| - 1];
      MaxIsLeastBound(before);
      forall i | 0 <= i < |history| ensures history[i] <= MaxOf(history) {
        assert i < |before| ==> before[i] == history[i];
      }
      if MaxOf(history) == MaxOf(before) && MaxOf(history) != 0.0 {
        var i :| 0 <= i < |before| && before[i] == MaxOf(before);
        assert history[i] == MaxOf(history);
      }
    }
  }
}

module CallbackTimings {
  import opened OrderStatistics

  ghost function Last(history: seq<real>, n: nat): seq<real> {
    if |history| < n then history else history[|history| - n..]
  }

  // Slot `at` is the next to be written, and reading from it round the ring gives the
  // history back, oldest first.
  ghost predicate Placed(slots: seq<real>, at: nat, history: seq<real>) {
    && at < |slots|
    && (|history| < |slots| ==> at == |history| && slots[..at] == history)
    && (|history| >= |slots| ==> slots[at..] + slots[..at] == Last(history, |slots|))
  }

  lemma Wraps(at: nat, n: nat)
    requires at < n
    ensures (at + 1) % n == if at + 1 == n then 0 else at + 1
  {
    if at + 1 < n {
      assert (at + 1) / n == 0;
    }
  }

  lemma RecordKeepsPlace(slots: seq<real>, at: nat, next: nat, history: seq<real>, x: real)
    requires Placed(slots, at, history)
    requires next == if at + 1 == |slots| then 0 else at + 1
    ensures Placed(slots[at := x], next, history + [x])
  {
    var now := slots[at := x];
    assert now[..at + 1] == slots[..at] + [x];
    assert now[at + 1..] == slots[at..][1..];
    if |history| >= |slots| {
      assert Last(history + [x], |slots|) == Last(history, |slots|)[1..] + [x];
      assert now[at + 1..] + now[..at + 1] == (slots[at..] + slots[..at])[1..] + [x];
    }
    if next == 0 {
      assert now[next..] + now[..next] == now[at + 1..] + now[..at + 1];
    }
  }

  lemma PrefixIsPart(whole: seq<real>, n: nat)
    requires n <= |whole|
    ensures multiset(whole[..n]) <= multiset(whole)
  {
    assert whole == whole[..n] + whole[n..];
  }

  // Every duration in the filled slots is one of the last ones, none of them twice.
  lemma FilledAreRecent(slots: seq<real>, at: nat, history: seq<real>, filled: nat)
    requires Placed(slots, at, history) && filled <= Min(|history|, |slots|)
    ensures multiset(slots[..filled]) <= multiset(Last(history, |slots|))
  {
    if |history| < |slots| {
      PrefixIsPart(slots[..at], filled);
      assert slots[..at][..filled] == slots[..filled];
    } else {
      PrefixIsPart(slots, filled);
      assert slots == slots[..at] + slots[at..];
    }
  }

  // A read is in two pieces, how many slots are filled and then a copy of so many, and the
  // clock thread may record any number of times in between, the last of them up to its
  // first statement. Whatever it recorded, the percentile is a duration among the last
  // `window`, and an order statistic of the ones copied.
  lemma AReadInPieces(slots: seq<real>, at: nat, history: seq<real>, filled: nat)
    requires Placed(slots, at, history) && 0 < filled <= Min(|history|, |slots|)
    ensures var copied := slots[..filled]; var p99 := P99(copied);
      && multiset(copied) <= multiset(Last(history, |slots|))
      && p99 in multiset(Last(history, |slots|))
      && NotAbove(copied, p99) >= Min(filled, 99 * filled / 100 + 1)
      && NotBelow(copied, p99) >= filled - Min(filled - 1, 99 * filled / 100)
  {
    FilledAreRecent(slots, at, history, filled);
    P99IsAnOrderStatistic(slots[..filled]);
  }

  class Timings {
    const window: nat
    const samples: array<real>
    var at: nat
    var filled: nat
    var maxS: real
    ghost var history: seq<real>

    // The samples still kept, oldest first: the last `window` durations recorded.
    ghost function Kept(): seq<real>
      reads this
    {
      Last(history, window)
    }

    ghost predicate Valid()
      reads this, samples
    {
      && window > 0 && samples.Length == window
      && filled == Min(|history|, window)
      && Placed(samples[..], at, history)
      && maxS == MaxOf(history)
    }

    constructor (window: nat)
      requires window > 0
      ensures Valid() && history == [] && this.window == window && fresh(samples)
    {
      this.window := window;
      samples := new real[window](_ => 0.0);
      at, filled, maxS, history := 0, 0, 0.0, [];
    }

    method Record(seconds: real)
      requires Valid()
      modifies this, samples
      ensures Valid() && history == old(history) + [seconds]
    {
      ghost var was, n := samples[..], history;
      ghost var slot := at;
      samples[at] := seconds;
      at := (at + 1) % window;
      if filled < window {
        filled := filled + 1;
      }
      if seconds > maxS {
        maxS := seconds;
      }
      history := history + [seconds];
      assert samples[..] == was[slot := seconds];
      Wraps(slot, window);
      RecordKeepsPlace(was, slot, at, n, seconds);
      MaxGrows(n, seconds);
    }

    // As multisets, the filled slots are the last min(n, window) durations.
    lemma SlotsAreTheLastOnes()
      requires Valid()
      ensures multiset(samples[..filled]) == multiset(Kept())
      ensures Kept() == history[|history| - filled..]
    {
      if |history| >= window {
        assert samples[..filled] == samples[..at] + samples[at..];
      }
    }

    method P99S() returns (r: real)
      requires Valid()
      ensures r == P99(Kept())
    {
      SlotsAreTheLastOnes();
      if filled == 0 {
        return 0.0;
      }
      var ordered := Sorted(samples[..filled]);
      AscendingIsUnique(ordered, Sorted(Kept()));
      r := ordered[Min(filled - 1, 99 * filled / 100)];
    }
  }
}
