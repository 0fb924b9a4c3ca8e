/**
 * The two filters on the media path (rust/src/firfilter.rs): a 17-tap lowpass
 * and a moving average, each over a circular history. The lowpass is modelled
 * over reals, so f32 rounding is not part of this model; its conversion back
 * to a 16-bit sample truncates and saturates as the cast does.
 */
module FirFilter {
  import opened Common

  // ---- Lowpass ----

  const TAPS: seq<real> := [
    -0.002102, 0.000519, 0.014189, 0.010317, -0.037919, -0.060378, 0.063665, 0.299972, 0.425000,
    0.299972, 0.063665, -0.060378, -0.037919, 0.010317, 0.014189, 0.000519, -0.002102]

  function Tap(i: nat): real
    requires i < 17
  {
    TAPS[i]
  }

  /** The i-th input, with silence before the first. */
  function Input(past: seq<i16>, i: int): real {
    if 0 <= i < |past| then past[i] as real else 0.0
  }

  /** The first k terms of the convolution of the inputs so far with the taps, newest input first. */
  function Convolution(past: seq<i16>, k: nat): real
    requires k <= 17
  {
    if k == 0 then 0.0 else Convolution(past, k - 1) + Tap(k - 1) * Input(past, |past| - k)
  }

  /** `as i16` on a float: toward zero, and saturating. */
  function ToSample(x: real): i16 {
    var t := if x >= 0.0 then x.Floor else -((-x).Floor);
    if t > 0x7fff then 0x7fff else if t < -0x8000 then -0x8000 else t
  }

  /** Toward zero: between x and 0, by less than one; and the nearest end of the range outside it. */
  lemma ToSampleIs(x: real)
    ensures var r := ToSample(x) as real;
            && (0.0 <= x < 32768.0 ==> r <= x < r + 1.0)
            && (-32769.0 < x < 0.0 ==> r - 1.0 < x <= r)
            && (x >= 32768.0 ==> r == 32767.0) && (x <= -32769.0 ==> r == -32768.0)
  {
  }

  /** The answer to a single impulse, n samples on, is tap n times its height; after 17 samples there is none. */
  lemma {:induction false} ImpulseResponse(v: i16, n: nat)
    ensures var past := [v] + seq(n, i => 0);
            Convolution(past, 17) == if n < 17 then Tap(n) * (v as real) else 0.0
  {
    var past: seq<i16> := [v] + seq(n, i => 0);
    ImpulseTerms(past, v, n, 17);
  }

  lemma {:induction false} ImpulseTerms(past: seq<i16>, v: i16, n: nat, k: nat)
    requires |past| == n + 1 && past[0] == v && (forall i | 1 <= i <= n :: past[i] == 0) && k <= 17
    ensures Convolution(past, k) == if n < k then Tap(n) * (v as real) else 0.0
  {
    if k > 0 {
      ImpulseTerms(past, v, n, k - 1);
      hide Tap;
      assert Tap(k - 1) * 0.0 == 0.0;
    }
  }

  /** What the lowpass answers to v after the inputs in past. */
  function Filtered(past: seq<i16>, v: i16): i16 { ToSample(Convolution(past + [v], 17)) }

  function Term(past: seq<i16>, i: nat): real
    requires i < 17
  {
    Tap(i) * Input(past, |past| - 17 + i)
  }

  /** The same sum as the code takes it: the first i taps against the inputs from the oldest on. */
  function OldestFirst(past: seq<i16>, i: nat): real
    requires i <= 17
  {
    if i == 0 then 0.0 else OldestFirst(past, i - 1) + Term(past, i - 1)
  }

  lemma TapsAreSymmetric(k: nat)
    requires k < 17
    ensures Tap(k) == Tap(16 - k)
  {
  }

  /** Because the taps are symmetric, summing from the oldest input is the convolution. */
  lemma {:induction false} OldestFirstIsConvolution(past: seq<i16>, k: nat)
    requires k <= 17
    ensures OldestFirst(past, 17 - k) + Convolution(past, k) == OldestFirst(past, 17)
    ensures k == 17 ==> Convolution(past, 17) == OldestFirst(past, 17)
  {
    hide Tap, Input;
    if k > 0 {
      OldestFirstIsConvolution(past, k - 1);
      TapsAreSymmetric(k - 1);
    }
  }

  /** A circular history that holds the last 17 inputs, each at its index modulo 17. */
  predicate Ring(ring: seq<real>, past: seq<i16>) {
    |ring| == 17 && forall i | |past| - 17 <= i < |past| :: ring[i % 17] == Input(past, i)
  }

  lemma RingPush(ring: seq<real>, past: seq<i16>, v: i16)
    requires Ring(ring, past)
    ensures Ring(ring[|past| % 17 := v as real], past + [v])
  {
  }

  lemma RoundSteps(n: nat, j0: nat)
    requires n > 0 && j0 == (n - 1) % 17
    ensures j0 < 17 && (j0 + 1) % 17 == n % 17
  {
  }

  class Lowpass {
    const history: array<real>
    var round: nat
    ghost var past: seq<i16>

    ghost predicate Valid()
      reads this, history
    {
      history.Length == 17 && Ring(history[..], past) && round == |past| % 17
    }

    constructor ()
      ensures Valid() && past == [] && fresh(history)
    {
      history := new real[17](_ => 0.0);
      round := 0;
      past := [];
      new;
      assert forall i | -17 <= i < 0 :: 0 <= i % 17 < 17;
    }

    method Execute(val: i16) returns (r: i16)
      requires Valid()
      modifies this`round, this`past, history
      ensures Valid() && past == old(past) + [val]
      ensures r == Filtered(old(past), val)
    {
      hide Ring, Convolution, OldestFirst, ToSample;
      RingPush(history[..], past, val);
      var j0 := round;
      history[j0] := val as real;
      assert history[..] == old(history[..])[j0 := val as real];
      past := past + [val];
      RoundSteps(|past|, j0);
      var runtot := Weighted(j0);
      OldestFirstIsConvolution(past, 17);
      round := (round + 1) % 17;
      r := ToSample(runtot);
    }

    /** The two loops: from the slot after the newest to the end, then from the start. */
    method Weighted(j0: nat) returns (runtot: real)
      requires history.Length == 17 && Ring(history[..], past) && past != [] && j0 == (|past| - 1) % 17
      ensures runtot == OldestFirst(past, 17)
    {
      ghost var ring := history[..];
      hide *;
      NoTerms(past);
      runtot := 0.0;
      var first := (j0 + 1) % 17;
      RoundSteps(|past|, j0);
      var i := 0;
      var j := first;
      while j < 17
        invariant i <= 17 && j == first + i && j <= 17
        invariant runtot == OldestFirst(past, i)
      {
        OldestSlot(ring, past, first, i, j);
        var x := history[j];
        OneMoreTerm(past, i, x);
        runtot := runtot + Tap(i) * x;
        i := i + 1;
        j := j + 1;
      }
      j := 0;
      while i < 17
        invariant i <= 17 && j == first + i - 17 && 0 <= j
        invariant runtot == OldestFirst(past, i)
      {
        OldestSlot(ring, past, first, i, j);
        var x := history[j];
        OneMoreTerm(past, i, x);
        runtot := runtot + Tap(i) * x;
        i := i + 1;
        j := j + 1;
      }
    }
  }

  lemma NoTerms(past: seq<i16>)
    ensures OldestFirst(past, 0) == 0.0
  {
  }

  lemma OneMoreTerm(past: seq<i16>, i: nat, x: real)
    requires i < 17 && x == Input(past, |past| - 17 + i)
    ensures OldestFirst(past, i) + Tap(i) * x == OldestFirst(past, i + 1)
  {
    hide Tap, Input;
  }

  /** The slot the code reads for tap i holds the input 17 - i places from the end. */
  lemma OldestSlot(ring: seq<real>, past: seq<i16>, first: nat, i: nat, j: nat)
    requires Ring(ring, past) && i < 17 && first == |past| % 17
    requires j == first + i - (if first + i >= 17 then 17 else 0)
    ensures j < |ring| == 17 && ring[j] == Input(past, |past| - 17 + i)
  {
    hide Tap, Input;
    var k := |past| - 17 + i;
    assert |past| == 17 * (|past| / 17) + first;
    QuotientIs(k, 17, |past| / 17 - (if first + i >= 17 then 0 else 1), j);
    RingAt(ring, past, k);
  }

  lemma RingAt(ring: seq<real>, past: seq<i16>, k: int)
    requires Ring(ring, past) && |past| - 17 <= k < |past|
    ensures ring[k % 17] == Input(past, k)
  {
    hide Input;
  }

  // ---- Moving average ----

  const MA_LENGTH: nat := 250

  function Sum(s: seq<i16>): int {
    if s == [] then 0 else Sum(s[..|s| - 1]) + s[|s| - 1]
  }

  lemma {:induction false} SumDropFirst(s: seq<i16>)
    requires s != []
    ensures Sum(s[1..]) == Sum(s) - s[0]
  {
    if |s| > 1 {
      SumDropFirst(s[..|s| - 1]);
      assert s[..|s| - 1][1..] == s[1..][..|s| - 2];
    }
  }

  lemma {:induction false} SumBounds(s: seq<i16>)
    ensures -0x8000 * |s| <= Sum(s) <= 0x7fff * |s|
  {
    if s != [] { SumBounds(s[..|s| - 1]); }
  }

  /** Taking one more sample into the window: the oldest leaves once the window is full. */
  lemma WindowStep(past: seq<i16>, v: i16, l: nat)
    requires l > 0
    ensures Sum(LastN(past + [v], l)) == Sum(LastN(past, l)) + v - (if |past| >= l then past[|past| - l] else 0)
  {
    var w, w1 := LastN(past, l), LastN(past + [v], l);
    if |past| < l {
      assert w1[..|w1| - 1] == w;
    } else {
      assert w1[..l - 1] == w[1..];
      SumDropFirst(w);
    }
  }

  /** The average of the last l samples, with silence before the first, cut toward zero. */
  function Average(past: seq<i16>, l: nat): int
    requires l > 0
  {
    TruncDiv(Sum(LastN(past, l)), l)
  }

  /** The average of a window of equal samples is that sample, and a longer history makes no difference. */
  lemma AverageOfConstant(past: seq<i16>, v: i16, l: nat)
    requires 0 < l <= |past| && forall i | |past| - l <= i < |past| :: past[i] == v
    ensures Average(past, l) == v as int
  {
    SumOfConstant(LastN(past, l), v);
    hide Sum;
    assert (v as int) * l == Sum(LastN(past, l));
    TruncDivExact(v as int, l);
  }

  lemma {:induction false} SumOfConstant(s: seq<i16>, v: i16)
    requires forall i | 0 <= i < |s| :: s[i] == v
    ensures Sum(s) == (v as int) * |s|
  {
    if s != [] {
      SumOfConstant(s[..|s| - 1], v);
      assert (v as int) * |s| == (v as int) * (|s| - 1) + v as int;
    }
  }

  lemma TruncDivExact(q: int, l: nat)
    requires l > 0
    ensures TruncDiv(q * l, l) == q
  {
    var r := TruncDiv(q * l, l);
    hide TruncDiv;
    if q * l >= 0 {
      ProductBelow(q, r + 1, l);
      assert r > q ==> (r - q) * l >= l;
    } else {
      ProductBelow(r - 1, q, l);
      assert r < q ==> (q - r) * l >= l;
    }
  }

  /** The last n samples added up, from the newest back. */
  function LastSum(past: seq<i16>, n: nat): int {
    if n == 0 || past == [] then 0 else past[|past| - 1] + LastSum(past[..|past| - 1], n - 1)
  }

  lemma {:induction false} LastSumIsSum(past: seq<i16>, n: nat)
    ensures LastSum(past, n) == Sum(LastN(past, n))
  {
    if n > 0 && past != [] {
      var before, w := past[..|past| - 1], LastN(past, n);
      LastSumIsSum(before, n - 1);
      assert w[..|w| - 1] == LastN(before, n - 1);
    }
  }

  /** When the average is above a threshold: its division cuts toward zero, and before l samples have come in it counts silence. */
  predicate Above(past: seq<i16>, l: nat, threshold: int) {
    if threshold >= 0 then LastSum(past, l) >= (threshold + 1) * l else LastSum(past, l) > threshold * l
  }

  lemma AverageAbove(past: seq<i16>, l: nat, threshold: int)
    requires l > 0
    ensures Average(past, l) > threshold <==> Above(past, l, threshold)
  {
    LastSumIsSum(past, l);
    QuotientAbove(LastSum(past, l), l, threshold);
    hide Sum, LastSum, TruncDiv;
  }

  lemma QuotientAbove(sum: int, l: nat, threshold: int)
    requires l > 0
    ensures TruncDiv(sum, l) > threshold
       <==> if threshold >= 0 then sum >= (threshold + 1) * l else sum > threshold * l
  {
    var q := TruncDiv(sum, l);
    hide TruncDiv;
    Scaled(q, threshold + 1, l);
    Scaled(q, threshold, l);
    Scaled(q + 1, threshold + 1, l);
    Scaled(q - 1, threshold, l);
  }

  lemma Scaled(a: int, b: int, l: nat)
    requires l > 0
    ensures a <= b <==> a * l <= b * l
  {
    ProductNotBelow(b - a, l);
    assert (b - a) * l == b * l - a * l;
  }

  lemma ProductNotBelow(d: int, l: nat)
    requires l > 0
    ensures d * l >= 0 <==> d >= 0
  {
  }

  /** Neither the running total nor the average leaves its machine type. */
  lemma AverageFits(past: seq<i16>, l: nat)
    requires 0 < l <= MA_LENGTH
    ensures -0x8000 <= Average(past, l) < 0x8000
    ensures -0x8000_0000 <= Sum(LastN(past, l)) < 0x8000_0000
  {
    var w := LastN(past, l);
    SumBounds(w);
    QuotientFits(Sum(w), |w|, l);
  }

  lemma QuotientFits(sum: int, n: nat, l: nat)
    requires 0 < l && n <= l && -0x8000 * n <= sum <= 0x7fff * n
    ensures -0x8000 <= TruncDiv(sum, l) < 0x8000
  {
    var q := TruncDiv(sum, l);
    hide TruncDiv;
    if sum >= 0 {
      ProductBelow(q, 0x8000, l);
      ProductBelow(-0x8000, q + 1, l);
    } else {
      ProductBelow(-0x8001, q, l);
      ProductBelow(q - 1, 0x7fff, l);
    }
  }

  lemma ProductBelow(a: int, b: int, l: nat)
    requires 0 < l && a * l < b * l
    ensures a < b
  {
    assert a >= b ==> (a - b) * l >= 0;
  }

  function Slot(n: nat, l: nat): nat
    requires l > 0
  {
    n % l
  }

  lemma SlotFits(n: nat, l: nat)
    requires l > 0
    ensures Slot(n, l) < l
  {
  }

  /** The l slots in use hold the last l samples, each at its index modulo l, and silence where there are none. */
  predicate Window(ring: seq<int>, past: seq<i16>, l: nat)
    requires 0 < l <= |ring|
  {
    forall i | |past| - l <= i < |past| :: ring[i % l] == if i >= 0 then past[i] else 0
  }

  lemma WindowPush(ring: seq<int>, past: seq<i16>, l: nat, v: i16)
    requires 0 < l <= |ring| && Window(ring, past, l)
    ensures Slot(|past|, l) < l && ring[Slot(|past|, l)] == if |past| >= l then past[|past| - l] else 0
    ensures Window(ring[Slot(|past|, l) := v], past + [v], l)
  {
    OldestIsAtRound(|past|, l);
    forall i | |past| + 1 - l <= i < |past| ensures i % l != |past| % l {
      OtherSlot(|past|, i, l);
    }
  }

  class MaFilter {
    const history: array<int>
    var round: nat
    var l: nat
    var rtotal: int
    ghost var past: seq<i16>

    /** The whole state from the samples since the last reset; nothing when reset to length 0. */
    ghost predicate Valid()
      reads this, history
    {
      && history.Length == MA_LENGTH && l <= MA_LENGTH
      && (l > 0 ==>
            round == Slot(|past|, l) && rtotal == Sum(LastN(past, l)) && Window(history[..], past, l))
      && (l == 0 ==> past == [])
    }

    constructor ()
      ensures Valid() && past == [] && l == MA_LENGTH && fresh(history)
    {
      history := new int[MA_LENGTH](_ => 0);
      round := 0;
      l := MA_LENGTH;
      rtotal := 0;
      past := [];
    }

    method Reset(packets: nat)
      requires Valid()
      modifies this, history
      ensures Valid() && past == [] && l == if packets <= 250 then packets else 250
    {
      l := Min(packets, MA_LENGTH);
      rtotal := 0;
      forall i | 0 <= i < history.Length { history[i] := 0; }
      round := 0;
      past := [];
    }

    /** With length 0 the code divides by zero, so callers must have reset to at least one packet. */
    method Execute(val: i16) returns (r: i16)
      requires Valid() && l > 0
      modifies this`round, this`rtotal, this`past, history
      ensures Valid() && past == old(past) + [val]
      ensures r == Average(past, l)
    {
      hide Window, Sum, LastN, Slot, TruncDiv, Average;
      AverageStep(history[..], past, l, val);
      SlotFits(round + 1, l);
      AverageIsCut(past + [val], l);
      rtotal := rtotal - history[round];
      rtotal := rtotal + val;
      history[round] := val;
      assert history[..] == old(history[..])[round := val];
      past := past + [val];
      round := Slot(round + 1, l);
      r := TruncDiv(rtotal, l);
    }
  }

  lemma AverageIsCut(past: seq<i16>, l: nat)
    requires l > 0
    ensures Average(past, l) == TruncDiv(Sum(LastN(past, l)), l)
  {
  }

  lemma AverageStep(ring: seq<int>, past: seq<i16>, l: nat, v: i16)
    requires |ring| == MA_LENGTH && 0 < l <= MA_LENGTH && Window(ring, past, l)
    ensures var i, past1 := Slot(|past|, l), past + [v];
            && i < l && Slot(i + 1, l) == Slot(|past1|, l)
            && Window(ring[i := v], past1, l)
            && Sum(LastN(past1, l)) == Sum(LastN(past, l)) - ring[i] + v
            && -0x8000 <= TruncDiv(Sum(LastN(past1, l)), l) < 0x8000
  {
    hide Window, Sum, TruncDiv, LastN, Slot;
    WindowPush(ring, past, l, v);
    WindowStep(past, v, l);
    NextRound(|past|, l);
    AverageFits(past + [v], l);
  }

  lemma OldestIsAtRound(n: nat, l: nat)
    requires l > 0
    ensures (n - l) % l == n % l
  {
    assert (n - l) == l * (n / l - 1) + n % l;
    QuotientIs(n - l, l, n / l - 1, n % l);
  }

  lemma OtherSlot(n: nat, i: int, l: nat)
    requires l > 0 && n - l < i < n
    ensures i % l != n % l
  {
    var q, r, d := n / l, n % l, n - i;
    if r >= d {
      QuotientIs(i, l, q, r - d);
    } else {
      assert i == l * (q - 1) + (r - d + l);
      QuotientIs(i, l, q - 1, r - d + l);
    }
  }

  lemma NextRound(n: nat, l: nat)
    requires l > 0
    ensures Slot(Slot(n, l) + 1, l) == Slot(n + 1, l)
  {
    if n % l + 1 < l {
      QuotientIs(n + 1, l, n / l, n % l + 1);
      QuotientIs(n % l + 1, l, 0, n % l + 1);
    } else {
      assert n + 1 == l * (n / l) + l == l * (n / l + 1);
      QuotientIs(n + 1, l, n / l + 1, 0);
      QuotientIs(l, l, 1, 0);
    }
  }

  // ---- Resampling (rust/src/codec.rs) ----

  /** 16 kHz to 8 kHz: every sample through the filter, every second output kept. Returns the filter's inputs with them. */
  function Down(past: seq<i16>, wide: seq<i16>): (r: (seq<i16>, seq<i16>))
    decreases |wide|
  {
    if |wide| < 2 then ([], past)
    else
      var rest := Down(past + wide[..2], wide[2..]);
      ([Filtered(past + wide[..1], wide[1])] + rest.0, rest.1)
  }

  /** 8 kHz to 16 kHz: a zero after every sample, all through the filter. */
  function Up(past: seq<i16>, narrow: seq<i16>): (r: (seq<i16>, seq<i16>))
    decreases |narrow|
  {
    if narrow == [] then ([], past)
    else
      var rest := Up(past + [narrow[0], 0], narrow[1..]);
      ([Filtered(past, narrow[0]), Filtered(past + [narrow[0]], 0)] + rest.0, rest.1)
  }

  /** Resampling a stream down in packets of even size is resampling it whole. */
  lemma {:induction false} DownInPackets(past: seq<i16>, a: seq<i16>, b: seq<i16>)
    requires |a| % 2 == 0
    ensures var first := Down(past, a);
            Down(past, a + b).0 == first.0 + Down(first.1, b).0 && Down(past, a + b).1 == Down(first.1, b).1
    decreases |a|
  {
    if a == [] {
      assert a + b == b;
    } else {
      assert (a + b)[..2] == a[..2] && (a + b)[..1] == a[..1] && (a + b)[2..] == a[2..] + b;
      DownInPackets(past + a[..2], a[2..], b);
    }
  }

  /** What Down(past, a) leaves, b goes on from: the two packets resample to what the whole does. */
  predicate SplitsAt(past: seq<i16>, a: seq<i16>, b: seq<i16>) {
    var first := Down(past, a);
    Down(past, a + b).0 == first.0 + Down(first.1, b).0 && Down(past, a + b).1 == Down(first.1, b).1
  }

  /**
   * A packet can be resampled on its own, whatever came before and comes after
   * it, if and only if it has an even number of samples: an odd one loses its
   * last, and after it one output in two is missing or comes from the other phase.
   */
  lemma EvenPacketsIff(a: seq<i16>)
    ensures (forall past, b :: SplitsAt(past, a, b)) <==> |a| % 2 == 0
  {
    if |a| % 2 == 0 {
      forall past, b ensures SplitsAt(past, a, b) { DownInPackets(past, a, b); }
    } else {
      DownLength([], a);
      DownLength([], a + [0]);
      DownLength(Down([], a).1, [0]);
      assert !SplitsAt([], a, [0]);
    }
  }

  lemma {:induction false} UpInPackets(past: seq<i16>, a: seq<i16>, b: seq<i16>)
    ensures var first := Up(past, a);
            Up(past, a + b).0 == first.0 + Up(first.1, b).0 && Up(past, a + b).1 == Up(first.1, b).1
    decreases |a|
  {
    if a == [] {
      assert a + b == b;
    } else {
      assert (a + b)[1..] == a[1..] + b;
      UpInPackets(past + [a[0], 0], a[1..], b);
    }
  }

  /** A zero after every sample. */
  function Stuffed(s: seq<i16>): seq<i16> { if s == [] then [] else [s[0], 0] + Stuffed(s[1..]) }

  /** And of Up: outputs 2k and 2k + 1 are the filter's answers to sample k and to the zero put after it. */
  lemma {:induction false} UpAt(past: seq<i16>, narrow: seq<i16>, k: nat)
    requires k < |narrow|
    ensures var up, before := Up(past, narrow), past + Stuffed(narrow[..k]);
            && |up.0| == 2 * |narrow| && up.1 == past + Stuffed(narrow)
            && up.0[2 * k] == Filtered(before, narrow[k]) && up.0[2 * k + 1] == Filtered(before + [narrow[k]], 0)
    decreases |narrow|
  {
    UpLength(past, narrow);
    var past1, rest := past + [narrow[0], 0], narrow[1..];
    hide Filtered;
    if k == 0 {
      assert narrow[..0] == [] && past + [] == past;
    } else {
      UpAt(past1, rest, k - 1);
      assert narrow[..k][1..] == rest[..k - 1];
      assert past1 + Stuffed(rest[..k - 1]) == past + ([narrow[0], 0] + Stuffed(rest[..k - 1]));
    }
  }

  lemma {:induction false} UpLength(past: seq<i16>, narrow: seq<i16>)
    ensures |Up(past, narrow).0| == 2 * |narrow| && Up(past, narrow).1 == past + Stuffed(narrow)
    decreases |narrow|
  {
    hide Filtered;
    if narrow == [] {
      assert past + [] == past;
    } else {
      UpLength(past + [narrow[0], 0], narrow[1..]);
      assert past + [narrow[0], 0] + Stuffed(narrow[1..]) == past + ([narrow[0], 0] + Stuffed(narrow[1..]));
    }
  }

  /** Where each output comes from: output k of Down is the filter's answer at input 2k + 1 of the whole stream. */
  lemma {:induction false} DownAt(past: seq<i16>, wide: seq<i16>, k: nat)
    requires 2 * k + 1 < |wide|
    ensures |Down(past, wide).0| == |wide| / 2
    ensures Down(past, wide).0[k] == Filtered(past + wide[..2 * k + 1], wide[2 * k + 1])
    decreases |wide|
  {
    DownLength(past, wide);
    if k > 0 {
      DownAt(past + wide[..2], wide[2..], k - 1);
      assert past + wide[..2] + wide[2..][..2 * (k - 1) + 1] == past + wide[..2 * k + 1];
    }
  }

  lemma {:induction false} DownLength(past: seq<i16>, wide: seq<i16>)
    ensures |Down(past, wide).0| == |wide| / 2 && Down(past, wide).1 == past + wide[..|wide| - |wide| % 2]
    decreases |wide|
  {
    if |wide| >= 2 {
      DownLength(past + wide[..2], wide[2..]);
      assert past + wide[..2] + wide[2..][..|wide| - 2 - |wide| % 2] == past + wide[..|wide| - |wide| % 2];
    } else {
      assert past + wide[..0] == past;
    }
  }

  /** One turn of each loop, input by input. */
  lemma DownTurn(past: seq<i16>, wide: seq<i16>, i: nat)
    requires i + 1 < |wide|
    ensures var past1 := past + [wide[i]]; var past2 := past1 + [wide[i + 1]];
            && Down(past, wide[i..]).0 == [Filtered(past1, wide[i + 1])] + Down(past2, wide[i + 2..]).0
            && Down(past, wide[i..]).1 == Down(past2, wide[i + 2..]).1
  {
    hide Filtered;
    assert wide[i..][..1] == [wide[i]] && wide[i..][..2] == [wide[i], wide[i + 1]] && wide[i..][2..] == wide[i + 2..];
    assert past + [wide[i]] + [wide[i + 1]] == past + [wide[i], wide[i + 1]];
  }

  lemma UpTurn(past: seq<i16>, narrow: seq<i16>, i: nat)
    requires i < |narrow|
    ensures var past1 := past + [narrow[i]]; var past2 := past1 + [0];
            && Up(past, narrow[i..]).0 == [Filtered(past, narrow[i]), Filtered(past1, 0)] + Up(past2, narrow[i + 1..]).0
            && Up(past, narrow[i..]).1 == Up(past2, narrow[i + 1..]).1
  {
    hide Filtered;
    assert narrow[i..][1..] == narrow[i + 1..];
    assert past + [narrow[i]] + [0] == past + [narrow[i], 0];
  }

  /** The loop of `g722_down_into`, over a filter that is not reset between packets. */
  method DownInto(wide: seq<i16>, filter: Lowpass) returns (out: seq<i16>)
    requires filter.Valid()
    modifies filter, filter.history
    ensures filter.Valid() && out == Down(old(filter.past), wide).0 && filter.past == Down(old(filter.past), wide).1
  {
    hide Lowpass.Valid, Filtered;
    out := [];
    var i := 0;
    while i + 1 < |wide|
      invariant i <= |wide| && filter.Valid()
      invariant Down(old(filter.past), wide).0 == out + Down(filter.past, wide[i..]).0
      invariant Down(old(filter.past), wide).1 == Down(filter.past, wide[i..]).1
    {
      DownTurn(filter.past, wide, i);
      hide Down;
      var _ := filter.Execute(wide[i]);
      var y := filter.Execute(wide[i + 1]);
      out := out + [y];
      i := i + 2;
    }
  }

  /** The loop of `g722_up_into`. */
  method UpInto(narrow: seq<i16>, filter: Lowpass) returns (out: seq<i16>)
    requires filter.Valid()
    modifies filter, filter.history
    ensures filter.Valid() && out == Up(old(filter.past), narrow).0 && filter.past == Up(old(filter.past), narrow).1
  {
    hide Lowpass.Valid, Filtered;
    out := [];
    for i := 0 to |narrow|
      invariant filter.Valid()
      invariant Up(old(filter.past), narrow).0 == out + Up(filter.past, narrow[i..]).0
      invariant Up(old(filter.past), narrow).1 == Up(filter.past, narrow[i..]).1
    {
      UpTurn(filter.past, narrow, i);
      hide Up;
      var a := filter.Execute(narrow[i]);
      var b := filter.Execute(0);
      out := out + [a, b];
    }
  }
}
