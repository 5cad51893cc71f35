// A-law, section 3 of ITU-T Rec. G.711: the fold the downlink applies, in the program's
// own terms, and the expansion the other end applies, in the recommendation's. Bytes are
// eight-bit vectors and samples are integers; a shift is a division that rounds down.
module G711 {
  import opened Octets

  const SEGMENT_ENDS: seq<int> := [0x1F, 0x3F, 0x7F, 0xFF, 0x1FF, 0x3FF, 0x7FF, 0xFFF]
  const SEGMENTS := 8
  const TABLE_SIZE := 8192
  const SIGN_SPLIT := 4096

  function Shifted(value: int, bits: nat): int
    requires bits <= 8
  {
    value / [1, 2, 4, 8, 16, 32, 64, 128, 256][bits]
  }

  // The first segment whose end is not below the value, or SEGMENTS.
  function SegmentFrom(value: int, i: nat): (segment: nat)
    requires i <= SEGMENTS
    decreases SEGMENTS - i
  {
    if i == SEGMENTS then SEGMENTS
    else if value <= SEGMENT_ENDS[i] then i
    else SegmentFrom(value, i + 1)
  }

  // What `_companded` computes before the sign mask is applied.
  function Code(value: nat): (code: int)
    ensures 0 <= code < 128
  {
    var segment := SegmentFrom(value, 0);
    if segment >= SEGMENTS then 0x7F
    else segment * 16 + Shifted(value, if segment < 2 then 1 else segment) % 16
  }

  function Magnitude(value: int): nat {
    if value >= 0 then value else -value - 1
  }

  const POSITIVE: bv8 := 0xD5
  const NEGATIVE: bv8 := 0x55

  // Sign and magnitude coded apart; the sign picks the mask.
  function Companded(value: int): bv8 {
    (Code(Magnitude(value)) as bv8) ^ (if value >= 0 then POSITIVE else NEGATIVE)
  }

  function Table(): seq<bv8> {
    seq(TABLE_SIZE, i => Companded(if i >= SIGN_SPLIT then i - TABLE_SIZE else i))
  }

  predicate Sample(s: int) { -0x8000 <= s < 0x8000 }

  // `_ALAW_TABLE[(s >> 3) & 0x1FFF]`
  function Folded(s: int): bv8 {
    Table()[(s / 8) % TABLE_SIZE]
  }

  // The recommendation's decoder: the even bits are inverted back, the top bit is the
  // sign, and the magnitude is the middle of the interval the code stands for, in the
  // sixteen-bit scale the conference bridge carries.
  function Middle(code: int): int
    requires 0 <= code < 128
  {
    var segment, low := code / 16, code % 16;
    if segment == 0 then low * 16 + 8
    else (low * 16 + 0x108) * [0, 1, 2, 4, 8, 16, 32, 64][segment]
  }

  function Expand(octet: bv8): int {
    if octet & 0x80 != 0 then Middle(((octet ^ POSITIVE) & 0x7F) as int)
    else -Middle(((octet ^ NEGATIVE) & 0x7F) as int)
  }

  // ---- the table ---------------------------------------------------------------

  function SegmentStart(segment: nat): int
    requires segment < SEGMENTS
  {
    if segment == 0 then 0 else SEGMENT_ENDS[segment - 1] + 1
  }

  // A magnitude of twelve bits lies in one of the eight segments: the branch that
  // saturates is never taken.
  lemma SegmentHolds(value: nat)
    requires value < SIGN_SPLIT
    ensures var segment := SegmentFrom(value, 0);
      segment < SEGMENTS && SegmentStart(segment) <= value <= SEGMENT_ENDS[segment]
  {
    SegmentHoldsFrom(value, 0);
  }

  lemma {:induction false} SegmentHoldsFrom(value: nat, i: nat)
    requires value < SIGN_SPLIT && i < SEGMENTS && SegmentStart(i) <= value
    ensures var segment := SegmentFrom(value, i);
      segment < SEGMENTS && SegmentStart(segment) <= value <= SEGMENT_ENDS[segment]
    decreases SEGMENTS - i
  {
    if value > SEGMENT_ENDS[i] {
      SegmentHoldsFrom(value, i + 1);
    }
  }

  // The 8192 entries cover every 16 bit sample, and agree with the arithmetic on it.
  lemma TableAgrees(s: int)
    requires Sample(s)
    ensures 0 <= (s / 8) % TABLE_SIZE < |Table()|
    ensures Folded(s) == Companded(s / 8)
    ensures SegmentFrom(Magnitude(s / 8), 0) < SEGMENTS
  {
    var v := s / 8;
    assert -SIGN_SPLIT <= v < SIGN_SPLIT;
    SegmentHolds(Magnitude(v));
    assert v % TABLE_SIZE == if v >= 0 then v else v + TABLE_SIZE;
  }

  // ---- a fold undoes an expansion ----------------------------------------------

  lemma XorTwice(c: bv8, mask: bv8)
    requires c < 0x80
    ensures ((c ^ mask) ^ mask) & 0x7F == c && (c ^ mask) & 0x80 == mask & 0x80
  {
  }

  lemma XorUndone(code: int)
    requires 0 <= code < 128
    ensures ((code as bv8) ^ POSITIVE) & 0x80 != 0 && ((code as bv8) ^ NEGATIVE) & 0x80 == 0
    ensures ((((code as bv8) ^ POSITIVE) ^ POSITIVE) & 0x7F) as int == code
    ensures ((((code as bv8) ^ NEGATIVE) ^ NEGATIVE) & 0x7F) as int == code
  {
    XorTwice(code as bv8, POSITIVE);
    XorTwice(code as bv8, NEGATIVE);
  }

  lemma XorRestored(octet: bv8, mask: bv8) returns (code: int)
    requires mask == (if octet & 0x80 != 0 then POSITIVE else NEGATIVE)
    ensures 0 <= code < 128 && code == ((octet ^ mask) & 0x7F) as int
    ensures (code as bv8) ^ mask == octet
  {
    var c := (octet ^ mask) & 0x7F;
    assert c ^ mask == octet && c < 0x80;
    code := c as int;
  }

  // A code stands for `Width` consecutive magnitudes, starting at `Start`.
  function Width(segment: nat): nat
    requires segment < SEGMENTS
  {
    [2, 2, 4, 8, 16, 32, 64, 128][segment]
  }

  function Start(code: int): nat
    requires 0 <= code < 128
  {
    SegmentStart(code / 16) + code % 16 * Width(code / 16)
  }

  predicate InInterval(code: int, m: int)
    requires 0 <= code < 128
  {
    Start(code) <= m < Start(code) + Width(code / 16)
  }

  // The code of a magnitude is the one whose interval it lies in.
  lemma CodeOfInterval(code: int, m: nat)
    requires 0 <= code < 128 && InInterval(code, m)
    ensures m < SIGN_SPLIT && SegmentFrom(m, 0) == code / 16 && Code(m) == code
  {
    var segment, low := code / 16, code % 16;
    SegmentCases(segment, low, m);
    SegmentHolds(m);
    assert SegmentFrom(m, 0) == segment;
  }

  predicate InStep(segment: nat, low: nat, m: nat)
    requires segment < SEGMENTS
  {
    low < 16 && SegmentStart(segment) + low * Width(segment) <= m
    < SegmentStart(segment) + low * Width(segment) + Width(segment)
  }

  lemma LowerSegments(segment: nat, low: nat, m: nat)
    requires segment < 4 && InStep(segment, low, m)
    ensures SegmentStart(segment) <= m <= SEGMENT_ENDS[segment]
    ensures Shifted(m, if segment < 2 then 1 else segment) % 16 == low
  {
    if segment == 0 { assert m / 2 == low; }
    else if segment == 1 { assert m / 2 == 16 + low; }
    else if segment == 2 { assert m / 4 == 16 + low; }
    else { assert m / 8 == 16 + low; }
  }

  lemma UpperSegments(segment: nat, low: nat, m: nat)
    requires 4 <= segment < 6 && InStep(segment, low, m)
    ensures SegmentStart(segment) <= m <= SEGMENT_ENDS[segment]
    ensures Shifted(m, segment) % 16 == low
  {
    if segment == 4 { assert m / 16 == 16 + low; } else { assert m / 32 == 16 + low; }
  }

  lemma TopSegments(segment: nat, low: nat, m: nat)
    requires 6 <= segment < SEGMENTS && InStep(segment, low, m)
    ensures SegmentStart(segment) <= m <= SEGMENT_ENDS[segment]
    ensures Shifted(m, segment) % 16 == low
  {
    if segment == 6 { assert m / 64 == 16 + low; } else { assert m / 128 == 16 + low; }
  }

  lemma SegmentCases(segment: nat, low: nat, m: nat)
    requires segment < SEGMENTS && InStep(segment, low, m)
    ensures SegmentStart(segment) <= m <= SEGMENT_ENDS[segment]
    ensures Shifted(m, if segment < 2 then 1 else segment) % 16 == low
  {
    if segment < 4 { LowerSegments(segment, low, m); }
    else if segment < 6 { UpperSegments(segment, low, m); }
    else { TopSegments(segment, low, m); }
  }

  // Conversely a magnitude lies in the interval of its code.
  lemma IntervalOfCode(m: nat)
    requires m < SIGN_SPLIT
    ensures InInterval(Code(m), m) && Code(m) / 16 == SegmentFrom(m, 0)
  {
    SegmentHolds(m);
    var segment := SegmentFrom(m, 0);
    var low := LowCases(segment, m);
    assert Code(m) == segment * 16 + low;
  }

  function LowBits(segment: nat, m: nat): nat
    requires segment < SEGMENTS
  {
    Shifted(m, if segment < 2 then 1 else segment) % 16
  }

  lemma LowestSteps(segment: nat, m: nat)
    requires segment < 2 && SegmentStart(segment) <= m <= SEGMENT_ENDS[segment]
    ensures InStep(segment, LowBits(segment, m), m)
  {
    var low := LowBits(segment, m);
    if segment == 0 { assert m / 2 == low; } else { assert m / 2 == 16 + low; }
  }

  lemma LowerSteps(segment: nat, m: nat)
    requires 2 <= segment < 4 && SegmentStart(segment) <= m <= SEGMENT_ENDS[segment]
    ensures InStep(segment, LowBits(segment, m), m)
  {
    var low := LowBits(segment, m);
    if segment == 2 { assert m / 4 == 16 + low; } else { assert m / 8 == 16 + low; }
  }

  lemma UpperSteps(segment: nat, m: nat)
    requires 4 <= segment < 6 && SegmentStart(segment) <= m <= SEGMENT_ENDS[segment]
    ensures InStep(segment, LowBits(segment, m), m)
  {
    var low := LowBits(segment, m);
    if segment == 4 { assert m / 16 == 16 + low; } else { assert m / 32 == 16 + low; }
  }

  lemma TopSteps(segment: nat, m: nat)
    requires 6 <= segment < SEGMENTS && SegmentStart(segment) <= m <= SEGMENT_ENDS[segment]
    ensures InStep(segment, LowBits(segment, m), m)
  {
    var low := LowBits(segment, m);
    if segment == 6 { assert m / 64 == 16 + low; } else { assert m / 128 == 16 + low; }
  }

  lemma LowCases(segment: nat, m: nat) returns (low: nat)
    requires segment < SEGMENTS && SegmentStart(segment) <= m <= SEGMENT_ENDS[segment]
    ensures low == LowBits(segment, m) && InStep(segment, low, m)
  {
    low := LowBits(segment, m);
    if segment < 2 { LowestSteps(segment, m); }
    else if segment < 4 { LowerSteps(segment, m); }
    else if segment < 6 { UpperSteps(segment, m); }
    else { TopSteps(segment, m); }
  }

  // The decoder answers the exact middle of the interval, in sixteen-bit units.
  lemma MiddleOfInterval(code: int)
    requires 0 <= code < 128
    ensures Middle(code) == 8 * Start(code) + 4 * Width(code / 16)
    ensures 8 <= Middle(code) < 0x8000
  {
    var segment, low := code / 16, code % 16;
    if segment == 0 {} else if segment == 1 {} else if segment == 2 {} else if segment == 3 {}
    else if segment == 4 {} else if segment == 5 {} else if segment == 6 {} else {}
  }

  lemma FoldUndoesExpand(octet: bv8)
    ensures Sample(Expand(octet)) && Folded(Expand(octet)) == octet
  {
    var mask := if octet & 0x80 != 0 then POSITIVE else NEGATIVE;
    var code := XorRestored(octet, mask);
    var s := if mask == POSITIVE then Middle(code) else -Middle(code);
    assert Expand(octet) == s;
    MiddleFolds(code);
    TableAgrees(s);
  }

  // Either sign of a middle has the magnitude it came from.
  lemma MiddleFolds(code: int)
    requires 0 <= code < 128
    ensures var middle := Middle(code);
      && Sample(middle) && Sample(-middle)
      && middle / 8 >= 0 && Code(middle / 8) == code
      && (-middle) / 8 < 0 && Code(Magnitude((-middle) / 8)) == code
  {
    MiddleOfInterval(code);
    WidthIsEven(code / 16);
    CodeOfInterval(code, Middle(code) / 8);
    CodeOfInterval(code, Magnitude((-Middle(code)) / 8));
  }

  lemma WidthIsEven(segment: nat)
    requires segment < SEGMENTS
    ensures Width(segment) % 2 == 0 && Width(segment) >= 2
  {
  }

  // ---- an expansion after a fold -----------------------------------------------

  // What a folded sample comes back as.
  lemma ExpandAfterFold(s: int)
    requires Sample(s)
    ensures var v := s / 8; var middle := Middle(Code(Magnitude(v)));
      Expand(Folded(s)) == if v >= 0 then middle else -middle
  {
    TableAgrees(s);
    XorUndone(Code(Magnitude(s / 8)));
  }

  // It errs by at most half the step of the segment the sample lies in.
  lemma FoldError(s: int)
    requires Sample(s)
    ensures var segment := SegmentFrom(Magnitude(s / 8), 0);
      segment < SEGMENTS && -4 * Width(segment) <= Expand(Folded(s)) - s <= 4 * Width(segment)
  {
    var m := Magnitude(s / 8);
    ExpandAfterFold(s);
    SegmentHolds(m);
    IntervalOfCode(m);
    MiddleOfInterval(Code(m));
  }

  // Codes grow with magnitudes, and middles with codes.
  lemma MiddlesGrow(code: int)
    requires 0 <= code < 127
    ensures Middle(code) < Middle(code + 1) && Start(code) + Width(code / 16) == Start(code + 1)
  {
    MiddleOfInterval(code);
    MiddleOfInterval(code + 1);
    var segment := code / 16;
    if code % 16 < 15 {
      assert (code + 1) / 16 == segment && (code + 1) % 16 == code % 16 + 1;
    } else {
      assert (code + 1) / 16 == segment + 1 && (code + 1) % 16 == 0;
    }
  }

  lemma {:induction false} MiddlesOrdered(low: int, high: int)
    requires 0 <= low <= high < 128
    ensures Middle(low) <= Middle(high) && Start(low) <= Start(high)
    ensures low < high ==> Start(low) + Width(low / 16) <= Start(high)
    decreases high - low
  {
    if low < high {
      MiddlesGrow(low);
      MiddlesOrdered(low + 1, high);
    }
  }

  lemma CodesOrdered(m: nat, n: nat)
    requires m <= n < SIGN_SPLIT
    ensures Code(m) <= Code(n)
  {
    IntervalOfCode(m);
    IntervalOfCode(n);
    if Code(n) < Code(m) {
      MiddlesOrdered(Code(n), Code(m));
    }
  }

  // Folding then expanding never reorders two samples.
  lemma FoldIsMonotone(s: int, t: int)
    requires Sample(s) && Sample(t) && s <= t
    ensures Expand(Folded(s)) <= Expand(Folded(t))
  {
    var v, w := s / 8, t / 8;
    ExpandAfterFold(s);
    ExpandAfterFold(t);
    MiddleOfInterval(Code(Magnitude(v)));
    MiddleOfInterval(Code(Magnitude(w)));
    if v >= 0 {
      CodesOrdered(v, w);
      MiddlesOrdered(Code(v), Code(w));
    } else if w < 0 {
      CodesOrdered(Magnitude(w), Magnitude(v));
      MiddlesOrdered(Code(Magnitude(w)), Code(Magnitude(v)));
    }
  }

  // ---- whole frames ------------------------------------------------------------

  // `array("h").frombytes`: little-endian signed 16 bit.
  function SampleAt(low: Byte, high: Byte): (s: int)
    ensures Sample(s)
  {
    var unsigned := low + 256 * high;
    if unsigned >= 0x8000 then unsigned - 0x10000 else unsigned
  }

  function SampleBytes(s: int): (b: Bytes)
    requires Sample(s)
    ensures |b| == 2 && SampleAt(b[0], b[1]) == s
  {
    var unsigned := if s < 0 then s + 0x10000 else s;
    [unsigned % 256, unsigned / 256]
  }

  // Whole samples only: a trailing odd byte is dropped.
  function ToAlaw(pcm: Bytes): (alaw: seq<bv8>)
    ensures |alaw| == |pcm| / 2
  {
    if |pcm| < 2 then [] else [Folded(SampleAt(pcm[0], pcm[1]))] + ToAlaw(pcm[2..])
  }

  lemma {:induction false} ToAlawAt(pcm: Bytes, i: nat)
    requires i < |pcm| / 2
    ensures ToAlaw(pcm)[i] == Folded(SampleAt(pcm[2 * i], pcm[2 * i + 1]))
  {
    if i > 0 {
      ToAlawAt(pcm[2..], i - 1);
      assert pcm[2..][2 * (i - 1)] == pcm[2 * i] && pcm[2..][2 * (i - 1) + 1] == pcm[2 * i + 1];
    }
  }

  function Expanded(alaw: seq<bv8>): Bytes {
    if alaw == [] then []
    else
      FoldUndoesExpand(alaw[0]);
      SampleBytes(Expand(alaw[0])) + Expanded(alaw[1..])
  }

  // What the far end decoded folds back to the bytes it was decoded from, whatever the
  // length, and whether or not half a sample trails it.
  lemma {:induction false} FoldIsExact(alaw: seq<bv8>, trailing: Bytes)
    requires |trailing| <= 1
    ensures ToAlaw(Expanded(alaw) + trailing) == alaw
  {
    if alaw != [] {
      var pcm := Expanded(alaw) + trailing;
      FoldUndoesExpand(alaw[0]);
      assert pcm[2..] == Expanded(alaw[1..]) + trailing;
      FoldIsExact(alaw[1..], trailing);
    }
  }
}
