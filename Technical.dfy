/**
 * Series derived from one price history: the trailing moving averages of
 * the technical-analysis chart and the cumulative-performance curve of
 * the evolution tab.
 */
module Technical {
  import opened Wrappers

  function Sum(xs: seq<real>): real
    decreases |xs|
  {
    if xs == [] then 0.0 else Sum(xs[..|xs| - 1]) + xs[|xs| - 1]
  }

  function Mean(xs: seq<real>): real
    requires |xs| > 0
  {
    Sum(xs) / (|xs| as real)
  }

  lemma {:induction false} SumCons(x: real, xs: seq<real>)
    ensures Sum([x] + xs) == x + Sum(xs)
    decreases |xs|
  {
    if xs != [] {
      assert ([x] + xs)[..|[x] + xs| - 1] == [x] + xs[..|xs| - 1];
      SumCons(x, xs[..|xs| - 1]);
    }
  }

  /**
   * The sum of the window of `w` prices ending at position `i`, kept the
   * way a rolling window is: the previous window's sum, plus the price
   * that enters, minus the one that leaves.
   */
  function WindowSum(prix: seq<real>, w: nat, i: nat): real
    requires 0 < w <= i + 1 <= |prix|
    decreases i
  {
    if i + 1 == w then Sum(prix[..w])
    else WindowSum(prix, w, i - 1) + prix[i] - prix[i - w]
  }

  lemma {:induction false} WindowSumIsSum(prix: seq<real>, w: nat, i: nat)
    requires 0 < w <= i + 1 <= |prix|
    ensures WindowSum(prix, w, i) == Sum(prix[i + 1 - w..i + 1])
    decreases i
  {
    if i + 1 == w {
      assert prix[i + 1 - w..i + 1] == prix[..w];
    } else {
      WindowSumIsSum(prix, w, i - 1);
      var inner := prix[i + 1 - w..i];
      assert prix[i - w..i] == [prix[i - w]] + inner;
      SumCons(prix[i - w], inner);
      assert prix[i + 1 - w..i + 1][..w - 1] == inner;
    }
  }

  /**
   * The trailing mean over `w` prices: absent until the window is full,
   * then the window's sum divided by its length.
   */
  function RollingMean(prix: seq<real>, w: nat): (r: seq<Option<real>>)
    requires w > 0
    ensures |r| == |prix|
  {
    seq(|prix|, i requires 0 <= i < |prix| => if i + 1 < w then None else Some(WindowSum(prix, w, i) / (w as real)))
  }

  /** The moving average at `i` is the mean of the `w` prices ending at `i`, once there are `w` of them. */
  lemma RollingMeanIsTrailingMean(prix: seq<real>, w: nat)
    requires w > 0
    ensures forall i :: 0 <= i < |prix| && i + 1 < w ==> RollingMean(prix, w)[i] == None
    ensures forall i :: w - 1 <= i < |prix| ==> RollingMean(prix, w)[i] == Some(Mean(prix[i + 1 - w..i + 1]))
  {
    forall i | w - 1 <= i < |prix| ensures RollingMean(prix, w)[i] == Some(Mean(prix[i + 1 - w..i + 1])) {
      WindowSumIsSum(prix, w, i);
    }
  }

  const ShortWindow: nat := 20
  const LongWindow: nat := 50

  /** `MA20` and `MA50` of the technical-analysis chart. */
  function MA20(prix: seq<real>): seq<Option<real>> { RollingMean(prix, ShortWindow) }
  function MA50(prix: seq<real>): seq<Option<real>> { RollingMean(prix, LongWindow) }

  lemma MovingAverages(prix: seq<real>)
    ensures |MA20(prix)| == |prix| && |MA50(prix)| == |prix|
    ensures forall i :: 0 <= i < |prix| && i < 19 ==> MA20(prix)[i] == None
    ensures forall i :: 19 <= i < |prix| ==> MA20(prix)[i] == Some(Mean(prix[i - 19..i + 1]))
    ensures forall i :: 0 <= i < |prix| && i < 49 ==> MA50(prix)[i] == None
    ensures forall i :: 49 <= i < |prix| ==> MA50(prix)[i] == Some(Mean(prix[i - 49..i + 1]))
  {
    RollingMeanIsTrailingMean(prix, ShortWindow);
    RollingMeanIsTrailingMean(prix, LongWindow);
  }

  /** Every price that serves as the base of a period return is nonzero. */
  ghost predicate NonZeroBases(close: seq<real>) {
    forall i :: 0 <= i < |close| - 1 ==> close[i] != 0.0
  }

  /** The change from the close at `t - 1` to the close at `t`, as a fraction. */
  function PeriodReturn(close: seq<real>, t: nat): real
    requires NonZeroBases(close) && 1 <= t < |close|
  {
    close[t] / close[t - 1] - 1.0
  }

  /** The running sum of the period returns up to `t`; there is no return at the first date. */
  function ReturnSum(close: seq<real>, t: nat): real
    requires NonZeroBases(close) && t < |close|
    decreases t
  {
    if t == 0 then 0.0 else ReturnSum(close, t - 1) + PeriodReturn(close, t)
  }

  /** The cumulative-performance curve in percent: absent at the first date. */
  function CumulativeReturn(close: seq<real>): (r: seq<Option<real>>)
    requires NonZeroBases(close)
    ensures |r| == |close|
  {
    seq(|close|, t requires 0 <= t < |close| => if t == 0 then None else Some(ReturnSum(close, t) * 100.0))
  }

  /**
   * The curve adds period returns instead of compounding them: on a rising
   * series it never shows more than the true gain since the first date.
   */
  lemma {:induction false} ReturnSumUnderstatesRisingGain(close: seq<real>, t: nat)
    requires NonZeroBases(close) && t < |close|
    requires close[0] > 0.0
    requires forall i, j :: 0 <= i <= j < |close| ==> close[i] <= close[j]
    ensures ReturnSum(close, t) <= close[t] / close[0] - 1.0
    decreases t
  {
    if t == 0 {
      NoGainAtStart(close[0]);
    } else {
      ReturnSumUnderstatesRisingGain(close, t - 1);
      RatioStep(close[0], close[t - 1], close[t], ReturnSum(close, t - 1));
    }
  }

  lemma NoGainAtStart(c0: real)
    requires c0 > 0.0
    ensures c0 / c0 - 1.0 == 0.0
  {
    assert c0 / c0 == 1.0;
  }

  lemma RatioStep(c0: real, a: real, b: real, s: real)
    requires 0.0 < c0 <= a <= b
    requires s <= a / c0 - 1.0
    ensures s + (b / a - 1.0) <= b / c0 - 1.0
  {
    var d := b - a;
    var q, e, f := b / a, d / a, d / c0;
    assert q * a == b && e * a == d && f * c0 == d;
    var g := e - (q - 1.0);
    assert g * a == 0.0;
    assert g > 0.0 ==> g * a > 0.0;
    assert g < 0.0 ==> g * a < 0.0;
    assert e == q - 1.0;
    assert e >= 0.0;
    assert e * a >= e * c0;
    assert (f - e) * c0 >= 0.0;
    assert f >= e;
    assert b / c0 - a / c0 == f;
  }

  /** Prices 100, 110, 121: two 10 % periods show 20 %, while the price gained 21 %. */
  lemma AdditiveNotCompounded()
    ensures CumulativeReturn([100.0, 110.0, 121.0])[2] == Some(20.0)
    ensures (121.0 / 100.0 - 1.0) * 100.0 == 21.0
  {
    var close := [100.0, 110.0, 121.0];
    assert PeriodReturn(close, 1) == 0.1;
    assert PeriodReturn(close, 2) == 0.1;
  }
}
