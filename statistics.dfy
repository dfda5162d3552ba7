/** The folds behind `Event.getDataTypeAverage`, `Event.getDataTypeGain` and
    `Event.getDataTypeLoss` (src/app/entities/events/event.ts:138-202), stated over the
    sequence of per-point readings of one data type (None = a missing or zero reading). */
module Statistics {
  import opened Common

  function Pow10(n: nat): (r: nat)
    ensures r >= 1
  {
    if n == 0 then 1 else 10 * Pow10(n - 1)
  }

  /** Rounding of a non-negative value to a multiple of 1/scale, halves rounded up. */
  function ScaledRound(x: real, scale: real): real
    requires x >= 0.0 && scale >= 1.0
  {
    ((x * scale + 0.5).Floor as real) / scale
  }

  /** Rounding to a multiple of 1/scale, halves away from zero: the absolute value is
      rounded and the sign put back, as `toFixed` formats the digits of |x| after the sign. */
  function Round(x: real, scale: real): real
    requires scale >= 1.0
  {
    if x >= 0.0 then ScaledRound(x, scale) else -ScaledRound(-x, scale)
  }

  /** `n` units of 1/scale. */
  function ScaledUnits(n: int, scale: real): real
    requires scale >= 1.0
  {
    n as real / scale
  }

  /** `n` units of the last of `digits` decimals. */
  function Units(n: int, digits: nat): real {
    ScaledUnits(n, Pow10(digits) as real)
  }

  /** `Number(x.toFixed(digits))` on an exact decimal, rounded half away from zero. */
  function ToFixed(x: real, digits: nat): real {
    Round(x, Pow10(digits) as real)
  }

  /** `toFixed` rounds to `digits` decimals: the result is a whole number of units of
      10^-digits with the sign of `x`, within half a unit of `x`, and a tie goes away from
      zero; together, the nearest such number with halves rounded away from zero. */
  lemma ToFixedRounds(x: real, digits: nat)
    ensures exists n: int :: Units(n, digits) == ToFixed(x, digits)
    ensures (x >= 0.0 ==> ToFixed(x, digits) >= 0.0) && (x <= 0.0 ==> ToFixed(x, digits) <= 0.0)
    ensures -0.5 / (Pow10(digits) as real) <= ToFixed(x, digits) - x <= 0.5 / (Pow10(digits) as real)
    ensures x >= 0.0 ==> -0.5 / (Pow10(digits) as real) < ToFixed(x, digits) - x
    ensures x <= 0.0 ==> ToFixed(x, digits) - x < 0.5 / (Pow10(digits) as real)
  {
    RoundOnGrid(x, digits);
    RoundError(x, Pow10(digits) as real);
  }

  /** `Round` lands on the grid of 10^-digits. */
  lemma RoundOnGrid(x: real, digits: nat)
    ensures exists n: int :: Units(n, digits) == Round(x, Pow10(digits) as real)
  {
    RoundOnScaledGrid(x, Pow10(digits) as real);
    var n :| ScaledUnits(n, Pow10(digits) as real) == Round(x, Pow10(digits) as real);
    assert Units(n, digits) == Round(x, Pow10(digits) as real);
  }

  /** `Round` lands on the grid of 1/scale. */
  lemma RoundOnScaledGrid(x: real, scale: real)
    requires scale >= 1.0
    ensures exists n: int :: ScaledUnits(n, scale) == Round(x, scale)
  {
    if x >= 0.0 {
      assert ScaledUnits((x * scale + 0.5).Floor, scale) == Round(x, scale);
    } else {
      assert ScaledUnits(-(-x * scale + 0.5).Floor, scale) == Round(x, scale);
    }
  }

  /** `Round` keeps the sign of `x`, moves it at most half a unit, and strictly less than half
      a unit towards zero. */
  lemma RoundError(x: real, scale: real)
    requires scale >= 1.0
    ensures (x >= 0.0 ==> Round(x, scale) >= 0.0) && (x <= 0.0 ==> Round(x, scale) <= 0.0)
    ensures -0.5 / scale <= Round(x, scale) - x <= 0.5 / scale
    ensures x >= 0.0 ==> -0.5 / scale < Round(x, scale) - x
    ensures x <= 0.0 ==> Round(x, scale) - x < 0.5 / scale
  {
    if x >= 0.0 {
      ScaledRoundError(x, scale);
    } else {
      var y := -x;
      ScaledRoundError(y, scale);
      assert Round(x, scale) - x == -(ScaledRound(y, scale) - y);
      assert -0.5 / scale == -(0.5 / scale);
    }
  }

  /** Rounding a non-negative value to a multiple of 1/scale moves it strictly less than half
      a unit down and at most half a unit up. */
  lemma ScaledRoundError(x: real, scale: real)
    requires x >= 0.0 && scale >= 1.0
    ensures ScaledRound(x, scale) >= 0.0
    ensures -0.5 / scale < ScaledRound(x, scale) - x <= 0.5 / scale
  {
    var y := x * scale + 0.5;
    var f := y.Floor as real;
    assert f <= y < f + 1.0;
    assert f >= 0.0;
    var d := f - x * scale;
    assert -0.5 < d <= 0.5;
    assert f / scale - x == d / scale;
    DivideStrict(-0.5, d, scale);
    DivideMonotone(d, 0.5, scale);
    DivideMonotone(0.0, f, scale);
  }

  lemma DivideStrict(a: real, b: real, c: real)
    requires a < b && c > 0.0
    ensures a / c < b / c
  {
    assert b / c - a / c == (b - a) / c;
  }

  /** Worked values: 2.25 rounds away from zero in both directions, 100.04 rounds down. */
  lemma ToFixedExamples()
    ensures ToFixed(2.25, 1) == 2.3 && ToFixed(-2.25, 1) == -2.3 && ToFixed(100.04, 1) == 100.0
  {
    assert Pow10(1) == 10;
    assert (2.25 * 10.0 + 0.5).Floor == 23;
    assert (100.04 * 10.0 + 0.5).Floor == 1000;
  }

  lemma ScaledRoundMonotone(x: real, y: real, scale: real)
    requires 0.0 <= x <= y && scale >= 1.0
    ensures 0.0 <= ScaledRound(x, scale) <= ScaledRound(y, scale)
  {
    MultiplyMonotone(0.0, x, scale);
    MultiplyMonotone(x, y, scale);
    var a, b := x * scale + 0.5, y * scale + 0.5;
    FloorMonotone(a, b);
    var fa, fb := a.Floor as real, b.Floor as real;
    DivideMonotone(0.0, fa, scale);
    DivideMonotone(fa, fb, scale);
  }

  lemma MultiplyMonotone(a: real, b: real, c: real)
    requires a <= b && c > 0.0
    ensures a * c <= b * c
  {
    assert b * c - a * c == (b - a) * c;
  }

  lemma FloorMonotone(a: real, b: real)
    requires 0.0 < a <= b
    ensures 0 <= a.Floor <= b.Floor
  {
    assert a.Floor as real <= a <= b < b.Floor as real + 1.0;
  }

  lemma DivideMonotone(a: real, b: real, c: real)
    requires a <= b && c > 0.0
    ensures a / c <= b / c
  {
    assert b / c - a / c == (b - a) / c;
  }

  /** Rounding never reverses the order of two values. */
  lemma ToFixedMonotone(x: real, y: real, digits: nat)
    requires x <= y
    ensures ToFixed(x, digits) <= ToFixed(y, digits)
  {
    var scale := Pow10(digits) as real;
    if 0.0 <= x {
      ScaledRoundMonotone(x, y, scale);
    } else if 0.0 <= y {
      ScaledRoundMonotone(0.0, -x, scale);
      ScaledRoundMonotone(0.0, y, scale);
    } else {
      ScaledRoundMonotone(-y, -x, scale);
    }
  }

  /** Rounding commutes with negation. */
  lemma ToFixedOdd(x: real, digits: nat)
    ensures ToFixed(-x, digits) == -ToFixed(x, digits)
  {
    if x == 0.0 {
      assert ScaledRound(0.0, Pow10(digits) as real) == 0.0 by {
        assert (0.0 * (Pow10(digits) as real) + 0.5).Floor == 0;
      }
    }
  }

  /** The effective rounding precision and noise threshold. */
  datatype Settings = Settings(digits: nat, minDiff: real)

  /** `precision = precision || 1; minDiff = minDiff || 1.5`: an absent or zero argument
      takes the default. */
  function Defaults(precision: Option<nat>, minDiff: Option<real>): Settings {
    Settings(
      if precision.None? || precision.value == 0 then 1 else precision.value,
      if minDiff.None? || minDiff.value == 0.0 then 1.5 else minDiff.value)
  }

  /** Zero is falsy: an explicit precision of 0 or minDiff of 0 gives the defaults, as absent ones do. */
  lemma DefaultsFalsy()
    ensures Defaults(Some(0), Some(0.0)) == Defaults(None, None) == Settings(1, 1.5)
  {
  }

  /** Which consecutive pairs count and what they contribute.
      GainRule: event.ts:168-169. LossRule: event.ts:192-193, as written.
      IntendedLossRule: the mirror image of the gain rule (see Findings). */
  datatype Rule = GainRule | LossRule | IntendedLossRule

  /** What one pair (baseline `previous`, reading `next`) adds to the running total. */
  function Step(rule: Rule, s: Settings, previous: real, next: real): real {
    var p, n := ToFixed(previous, s.digits), ToFixed(next, s.digits);
    match rule
    case GainRule => if previous + s.minDiff < next then n - p else 0.0
    case LossRule => if n - s.minDiff < p then p - n else 0.0
    case IntendedLossRule => if next + s.minDiff < previous then p - n else 0.0
  }

  /** The `reduce` over points without an initial value: `previous` is the baseline,
      replaced by `next` when it has no reading, kept when `next` has none, and
      otherwise advanced to `next` after the pair is scored. */
  function Walk(rule: Rule, s: Settings, previous: Option<real>, rest: seq<Option<real>>): real
    decreases |rest|
  {
    if rest == [] then 0.0
    else if previous.None? then Walk(rule, s, rest[0], rest[1..])
    else if rest[0].None? then Walk(rule, s, previous, rest[1..])
    else Step(rule, s, previous.value, rest[0].value) + Walk(rule, s, rest[0], rest[1..])
  }

  /** The whole walk. `reduce` without an initial value throws a TypeError on an empty
      array, so there is no total (None) for no points. */
  function Total(rule: Rule, s: Settings, rs: seq<Option<real>>): Option<real> {
    if rs == [] then None else Some(Walk(rule, s, rs[0], rs[1..]))
  }

  /** The readings that are present, in order. */
  function Present(rs: seq<Option<real>>): (vs: seq<real>)
    ensures |vs| <= |rs|
  {
    if rs == [] then [] else (if rs[0].Some? then [rs[0].value] else []) + Present(rs[1..])
  }

  /** Reference definition: the sum of the steps over consecutive present readings. */
  function PairsSum(rule: Rule, s: Settings, vs: seq<real>): real
    decreases |vs|
  {
    if |vs| < 2 then 0.0 else Step(rule, s, vs[0], vs[1]) + PairsSum(rule, s, vs[1..])
  }

  /** The walk scores exactly the consecutive pairs of present readings: a missing reading
      neither resets nor advances the baseline, and a sub-threshold pair still advances it. */
  lemma {:induction false} WalkIsPairsSum(rule: Rule, s: Settings, previous: Option<real>, rest: seq<Option<real>>)
    ensures Walk(rule, s, previous, rest) == PairsSum(rule, s, Present([previous] + rest))
    decreases |rest|
  {
    if rest == [] {
      assert Present([previous] + rest) == Present([previous]);
      assert Present([previous][1..]) == [];
    } else if previous.None? {
      var tail := [rest[0]] + rest[1..];
      assert rest == tail;
      assert ([previous] + rest)[1..] == rest;
      assert Present([previous] + rest) == Present(rest);
      WalkIsPairsSum(rule, s, rest[0], rest[1..]);
    } else if rest[0].None? {
      var tail := [rest[0]] + rest[1..];
      assert ([previous] + rest)[1..] == rest;
      assert ([previous] + rest[1..])[1..] == rest[1..];
      assert rest == tail;
      assert Present(rest) == Present(rest[1..]);
      assert Present([previous] + rest) == [previous.value] + Present(rest);
      assert Present([previous] + rest[1..]) == [previous.value] + Present(rest[1..]);
      WalkIsPairsSum(rule, s, previous, rest[1..]);
    } else {
      var tail := [rest[0]] + rest[1..];
      var vs := Present([previous] + rest);
      assert ([previous] + rest)[1..] == rest;
      assert rest == tail;
      assert vs == [previous.value] + Present(rest);
      assert Present(rest) == [rest[0].value] + Present(rest[1..]);
      assert vs[1..] == Present(rest);
      WalkIsPairsSum(rule, s, rest[0], rest[1..]);
    }
  }

  /** Partner of Total: for any non-empty reading sequence the walk equals the reference sum. */
  lemma TotalIsPairsSum(rule: Rule, s: Settings, rs: seq<Option<real>>)
    requires rs != []
    ensures Total(rule, s, rs) == Some(PairsSum(rule, s, Present(rs)))
  {
    assert rs == [rs[0]] + rs[1..];
    WalkIsPairsSum(rule, s, rs[0], rs[1..]);
  }

  /** A single point, or readings without two present values, yield 0. */
  lemma FewReadingsGiveZero(rule: Rule, s: Settings, rs: seq<Option<real>>)
    requires rs != [] && |Present(rs)| < 2
    ensures Total(rule, s, rs) == Some(0.0)
  {
    TotalIsPairsSum(rule, s, rs);
  }

  /** Steps that never go negative make a non-negative sum. */
  lemma {:induction false} PairsSumNonNegative(rule: Rule, s: Settings, vs: seq<real>)
    requires rule != LossRule && s.minDiff >= 0.0
    ensures PairsSum(rule, s, vs) >= 0.0
    decreases |vs|
  {
    if |vs| >= 2 {
      if rule == GainRule {
        if vs[0] + s.minDiff < vs[1] { ToFixedMonotone(vs[0], vs[1], s.digits); }
      } else {
        if vs[1] + s.minDiff < vs[0] { ToFixedMonotone(vs[1], vs[0], s.digits); }
      }
      PairsSumNonNegative(rule, s, vs[1..]);
    }
  }

  /** With a non-negative threshold the gain is never negative. */
  lemma GainNonNegative(s: Settings, rs: seq<Option<real>>)
    requires rs != [] && s.minDiff >= 0.0
    ensures Total(GainRule, s, rs).Some? && Total(GainRule, s, rs).value >= 0.0
  {
    TotalIsPairsSum(GainRule, s, rs);
    PairsSumNonNegative(GainRule, s, Present(rs));
  }

  /** The series [100, 100.2, 103, 102.9, 106] with the defaults: because the baseline
      advances on every present pair, the gain is (103 - 100.2) + (106 - 102.9) = 5.9, and
      the as-written loss is (100 - 100.2) + (103 - 102.9) = -0.1. */
  lemma DefaultSeriesExample()
    ensures Total(GainRule, Defaults(None, None), [Some(100.0), Some(100.2), Some(103.0), Some(102.9), Some(106.0)]) == Some(5.9)
    ensures Total(LossRule, Defaults(None, None), [Some(100.0), Some(100.2), Some(103.0), Some(102.9), Some(106.0)]) == Some(-0.1)
  {
    var s := Defaults(None, None);
    assert Pow10(1) == 10;
    assert ToFixed(100.0, 1) == 100.0 by { assert (100.0 * 10.0 + 0.5).Floor == 1000; }
    assert ToFixed(100.2, 1) == 100.2 by { assert (100.2 * 10.0 + 0.5).Floor == 1002; }
    assert ToFixed(103.0, 1) == 103.0 by { assert (103.0 * 10.0 + 0.5).Floor == 1030; }
    assert ToFixed(102.9, 1) == 102.9 by { assert (102.9 * 10.0 + 0.5).Floor == 1029; }
    assert ToFixed(106.0, 1) == 106.0 by { assert (106.0 * 10.0 + 0.5).Floor == 1060; }
    var rs: seq<Option<real>> := [Some(100.0), Some(100.2), Some(103.0), Some(102.9), Some(106.0)];
    assert rs[1..] == [Some(100.2), Some(103.0), Some(102.9), Some(106.0)];
    assert rs[2..] == [Some(103.0), Some(102.9), Some(106.0)];
    assert rs[3..] == [Some(102.9), Some(106.0)];
    assert rs[4..] == [Some(106.0)];
    assert rs[1..][1..] == rs[2..] && rs[2..][1..] == rs[3..] && rs[3..][1..] == rs[4..] && |rs[4..][1..]| == 0;
    assert Walk(GainRule, s, Some(106.0), []) == 0.0;
    assert Walk(GainRule, s, Some(102.9), rs[4..]) == 3.1;
    assert Walk(GainRule, s, Some(103.0), rs[3..]) == 3.1;
    assert Walk(GainRule, s, Some(100.2), rs[2..]) == 5.9;
    assert Walk(GainRule, s, Some(100.0), rs[1..]) == 5.9;
    assert Walk(LossRule, s, Some(106.0), []) == 0.0;
    assert Walk(LossRule, s, Some(102.9), rs[4..]) == 0.0;
    assert Walk(LossRule, s, Some(103.0), rs[3..]) == 0.1;
    assert Walk(LossRule, s, Some(100.2), rs[2..]) == 0.1;
    assert Walk(LossRule, s, Some(100.0), rs[1..]) == -0.1;
  }

  /** As written, the loss test `round(next) - minDiff < round(previous)` also admits any
      rise smaller than minDiff, which then adds a negative amount. */
  lemma LossAsWrittenCountsSmallRises(s: Settings, previous: real, next: real)
    requires ToFixed(previous, s.digits) < ToFixed(next, s.digits) < ToFixed(previous, s.digits) + s.minDiff
    ensures Step(LossRule, s, previous, next) < 0.0
  {
  }

  /** Concrete case: two readings 100 and 100.2 with the defaults give a loss of -0.2. */
  lemma LossAsWrittenNegative()
    ensures Total(LossRule, Defaults(None, None), [Some(100.0), Some(100.2)]) == Some(-0.2)
  {
    var rs: seq<Option<real>> := [Some(100.0), Some(100.2)];
    assert Pow10(1) == 10;
    assert ToFixed(100.0, 1) == 100.0 by { assert (100.0 * 10.0 + 0.5).Floor == 1000; }
    assert ToFixed(100.2, 1) == 100.2 by { assert (100.2 * 10.0 + 0.5).Floor == 1002; }
    assert rs[1..] == [Some(100.2)] && |rs[1..][1..]| == 0;
  }

  /** The readings with every present value negated. */
  function Negated(rs: seq<Option<real>>): (r: seq<Option<real>>)
    ensures |r| == |rs|
  {
    if rs == [] then [] else [if rs[0].Some? then Some(-rs[0].value) else None] + Negated(rs[1..])
  }

  /** The intended loss is the gain of the mirrored series. */
  lemma {:induction false} IntendedLossWalkIsMirroredGain(s: Settings, previous: Option<real>, rest: seq<Option<real>>)
    ensures Walk(IntendedLossRule, s, previous, rest)
         == Walk(GainRule, s, Negated([previous])[0], Negated(rest))
    decreases |rest|
  {
    if rest != [] {
      var nr := Negated(rest);
      assert nr[0] == Negated([rest[0]])[0] && nr[1..] == Negated(rest[1..]);
      if previous.Some? && rest[0].Some? {
        ToFixedOdd(previous.value, s.digits);
        ToFixedOdd(rest[0].value, s.digits);
      }
      IntendedLossWalkIsMirroredGain(s, rest[0], rest[1..]);
      IntendedLossWalkIsMirroredGain(s, previous, rest[1..]);
    }
  }

  lemma IntendedLossIsMirroredGain(s: Settings, rs: seq<Option<real>>)
    ensures Total(IntendedLossRule, s, rs) == Total(GainRule, s, Negated(rs))
  {
    if rs != [] {
      var nr := Negated(rs);
      assert nr[0] == Negated([rs[0]])[0] && nr[1..] == Negated(rs[1..]);
      IntendedLossWalkIsMirroredGain(s, rs[0], rs[1..]);
    }
  }

  /** With a non-negative threshold the intended loss is never negative. */
  lemma IntendedLossNonNegative(s: Settings, rs: seq<Option<real>>)
    requires rs != [] && s.minDiff >= 0.0
    ensures Total(IntendedLossRule, s, rs).Some? && Total(IntendedLossRule, s, rs).value >= 0.0
  {
    TotalIsPairsSum(IntendedLossRule, s, rs);
    PairsSumNonNegative(IntendedLossRule, s, Present(rs));
  }

  // ---------------------------------------------------------------------------
  // Average (event.ts:138-153)

  function Sum(vs: seq<real>): real {
    if vs == [] then 0.0 else vs[0] + Sum(vs[1..])
  }

  /** A total divided by a count. */
  function Ratio(total: real, count: nat): real
    requires count > 0
  {
    total / count as real
  }

  /** The average as written: the divisor `count` starts at 1, so it is the sum of the
      present readings over one more than their number; no reading gives 0 / 1 = 0. */
  function AverageOf(rs: seq<Option<real>>): real {
    Ratio(Sum(Present(rs)), |Present(rs)| + 1)
  }

  /** The mean of the present readings, undefined (None) when there are none. */
  function MeanOf(rs: seq<Option<real>>): Option<real> {
    var vs := Present(rs);
    if vs == [] then None else Some(Ratio(Sum(vs), |vs|))
  }

  /** `average` is `mean` times n / (n + 1). */
  predicate ScaledBy(average: real, mean: real, n: nat) {
    average == mean * (n as real) / ((n + 1) as real)
  }

  /** The as-written average is the mean scaled by n / (n + 1) for n present readings. */
  lemma AverageAsWrittenScalesMean(rs: seq<Option<real>>)
    requires Present(rs) != []
    ensures ScaledBy(AverageOf(rs), MeanOf(rs).value, |Present(rs)|)
  {
    RatioScaled(Sum(Present(rs)), |Present(rs)|);
  }

  /** With no present reading the as-written average is 0 / 1 = 0, while the mean is undefined. */
  lemma AverageAsWrittenOfNothing(rs: seq<Option<real>>)
    requires Present(rs) == []
    ensures AverageOf(rs) == 0.0 && MeanOf(rs) == None
  {
  }

  lemma {:induction false} SumOfConstant(vs: seq<real>, v: real)
    requires forall i :: 0 <= i < |vs| ==> vs[i] == v
    ensures Sum(vs) == |vs| as real * v
  {
    if vs != [] {
      SumOfConstant(vs[1..], v);
    }
  }

  /** Readings all equal to v average to n * v / (n + 1), never to v itself. */
  lemma AverageAsWrittenOfConstant(rs: seq<Option<real>>, v: real)
    requires Present(rs) != [] && v != 0.0
    requires forall i :: 0 <= i < |Present(rs)| ==> Present(rs)[i] == v
    ensures ScaledBy(AverageOf(rs), v, |Present(rs)|)
    ensures AverageOf(rs) != v
  {
    SeqAverageOfConstant(Present(rs), v);
  }

  lemma SeqAverageOfConstant(vs: seq<real>, v: real)
    requires vs != [] && v != 0.0
    requires forall i :: 0 <= i < |vs| ==> vs[i] == v
    ensures ScaledBy(Ratio(Sum(vs), |vs| + 1), v, |vs|) && Ratio(Sum(vs), |vs| + 1) != v
  {
    SumOfConstant(vs, v);
    ScaledNotEqual(Sum(vs), |vs|, v);
  }

  /** Two points whose average is 10 each: the as-written average is 20 / 3, the mean 10. */
  lemma AverageAsWrittenExample()
    ensures AverageOf([Some(10.0), Some(10.0)]) == 20.0 / 3.0
    ensures MeanOf([Some(10.0), Some(10.0)]) == Some(10.0)
  {
    var rs: seq<Option<real>> := [Some(10.0), Some(10.0)];
    assert rs[1..] == [Some(10.0)] && |rs[1..][1..]| == 0;
    assert Present(rs) == [10.0, 10.0];
    assert Present(rs)[1..] == [10.0];
  }

  lemma MeanOfConstant(rs: seq<Option<real>>, v: real)
    requires Present(rs) != []
    requires forall i :: 0 <= i < |Present(rs)| ==> Present(rs)[i] == v
    ensures MeanOf(rs) == Some(v)
  {
    SeqMeanOfConstant(Present(rs), v);
  }

  lemma SeqMeanOfConstant(vs: seq<real>, v: real)
    requires vs != []
    requires forall i :: 0 <= i < |vs| ==> vs[i] == v
    ensures Ratio(Sum(vs), |vs|) == v
  {
    SumOfConstant(vs, v);
    RatioOfConstant(Sum(vs), |vs|, v);
  }

  lemma {:induction false} SumBounds(vs: seq<real>, lo: real, hi: real)
    requires forall i :: 0 <= i < |vs| ==> lo <= vs[i] <= hi
    ensures |vs| as real * lo <= Sum(vs) <= |vs| as real * hi
  {
    if vs != [] {
      SumBounds(vs[1..], lo, hi);
    }
  }

  /** The mean lies between the least and the greatest present reading. */
  lemma MeanBounds(rs: seq<Option<real>>, lo: real, hi: real)
    requires Present(rs) != []
    requires forall i :: 0 <= i < |Present(rs)| ==> lo <= Present(rs)[i] <= hi
    ensures lo <= MeanOf(rs).value <= hi
  {
    SeqMeanBounds(Present(rs), lo, hi);
  }

  lemma SeqMeanBounds(vs: seq<real>, lo: real, hi: real)
    requires vs != []
    requires forall i :: 0 <= i < |vs| ==> lo <= vs[i] <= hi
    ensures lo <= Ratio(Sum(vs), |vs|) <= hi
  {
    SumBounds(vs, lo, hi);
    RatioBounds(Sum(vs), |vs|, lo, hi);
  }

  lemma RatioScaled(total: real, n: nat)
    requires n > 0
    ensures ScaledBy(Ratio(total, n + 1), Ratio(total, n), n)
  {
    assert Ratio(total, n) * (n as real) == total;
  }

  lemma RatioOfConstant(total: real, n: nat, v: real)
    requires n > 0 && total == n as real * v
    ensures Ratio(total, n) == v
  {
    var q := Ratio(total, n);
    assert q * (n as real) == total;
    assert total == v * (n as real);
    MultiplyCancel(q, v, n as real);
    MultiplyCancel(v, q, n as real);
  }

  lemma RatioBounds(x: real, n: nat, lo: real, hi: real)
    requires n > 0 && n as real * lo <= x <= n as real * hi
    ensures lo <= Ratio(x, n) <= hi
  {
    var q := Ratio(x, n);
    assert q * (n as real) == x;
    MultiplyCancel(lo, q, n as real);
    MultiplyCancel(q, hi, n as real);
  }

  lemma MultiplyCancel(a: real, b: real, n: real)
    requires n > 0.0 && a * n <= b * n
    ensures a <= b
  {
    assert (b - a) * n == b * n - a * n;
  }

  lemma ScaledNotEqual(total: real, n: nat, v: real)
    requires n >= 1 && v != 0.0 && total == n as real * v
    ensures ScaledBy(Ratio(total, n + 1), v, n) && Ratio(total, n + 1) != v
  {
    var m := (n + 1) as real;
    var average := Ratio(total, n + 1);
    assert average * m == (n as real) * v;
    assert v * m == (n as real) * v + v;
  }
}
