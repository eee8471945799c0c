/**
 The rolling SMA and RSI of the shadow replay: running-sum loops over closing prices, against the
 plain per-window definitions. `Decimal` is modelled by `real`, without its 28-digit rounding.
 */
module RollingIndicators {
  import opened Wrappers

  const RSI_LOOKBACK_WINDOW := 14
  const SMA_SHORT_WINDOW := 50
  const SMA_LONG_WINDOW := 200

  // ---------------------------------------------------------------- per-window definitions

  /** xs[lo] + ... + xs[hi - 1] */
  function Sum(xs: seq<real>, lo: nat, hi: nat): real
    requires lo <= hi <= |xs|
  {
    if lo == hi then 0.0 else Sum(xs, lo, hi - 1) + xs[hi - 1]
  }

  /** The mean of the `window` values ending at index `i`. */
  function WindowMean(xs: seq<real>, i: nat, window: nat): real
    requires 0 < window <= i + 1 <= |xs|
  {
    Sum(xs, i + 1 - window, i + 1) / window as real
  }

  /** The rise, or zero, from the previous close; no change is known at the first one. */
  function Gain(closes: seq<real>, i: nat): real
    requires i < |closes|
  {
    if i > 0 && closes[i] > closes[i - 1] then closes[i] - closes[i - 1] else 0.0
  }

  function Loss(closes: seq<real>, i: nat): real
    requires i < |closes|
  {
    if i > 0 && closes[i] < closes[i - 1] then closes[i - 1] - closes[i] else 0.0
  }

  function Gains(closes: seq<real>): (r: seq<real>)
    ensures |r| == |closes|
  {
    seq(|closes|, i requires 0 <= i < |closes| => Gain(closes, i))
  }

  function Losses(closes: seq<real>): (r: seq<real>)
    ensures |r| == |closes|
  {
    seq(|closes|, i requires 0 <= i < |closes| => Loss(closes, i))
  }

  function Rsi(gain: real, loss: real): real
    requires gain >= 0.0 && loss >= 0.0
  {
    if gain == 0.0 && loss == 0.0 then 50.0
    else if loss == 0.0 then 100.0
    else
      RelativeStrengthNonNegative(gain, loss);
      100.0 - 100.0 / (1.0 + gain / loss)
  }

  lemma RelativeStrengthNonNegative(gain: real, loss: real)
    requires gain >= 0.0 && loss > 0.0
    ensures gain / loss >= 0.0
  {
  }

  /** The RSI at index `i`, straight from the last `window` price changes. */
  function RsiAt(closes: seq<real>, i: nat, window: nat): real
    requires 0 < window <= i < |closes|
  {
    WindowMeansNonNegative(closes, i, window);
    Rsi(WindowMean(Gains(closes), i, window), WindowMean(Losses(closes), i, window))
  }

  // ---------------------------------------------------------------- sums

  lemma {:induction false} SumDropFirst(xs: seq<real>, lo: nat, hi: nat)
    requires lo < hi <= |xs|
    ensures Sum(xs, lo, hi) == xs[lo] + Sum(xs, lo + 1, hi)
  {
    if lo + 1 < hi {
      SumDropFirst(xs, lo, hi - 1);
    }
  }

  lemma {:induction false} SumNonNegative(xs: seq<real>, lo: nat, hi: nat)
    requires lo <= hi <= |xs| && forall k :: lo <= k < hi ==> xs[k] >= 0.0
    ensures Sum(xs, lo, hi) >= 0.0
  {
    if lo < hi {
      SumNonNegative(xs, lo, hi - 1);
    }
  }

  function Scaled(closes: seq<real>, k: real): (r: seq<real>)
    ensures |r| == |closes|
  {
    seq(|closes|, i requires 0 <= i < |closes| => k * closes[i])
  }

  lemma {:induction false} SumScaled(xs: seq<real>, k: real, lo: nat, hi: nat)
    requires lo <= hi <= |xs|
    ensures Sum(Scaled(xs, k), lo, hi) == k * Sum(xs, lo, hi)
  {
    if lo < hi {
      SumScaled(xs, k, lo, hi - 1);
      assert k * (Sum(xs, lo, hi - 1) + xs[hi - 1]) == k * Sum(xs, lo, hi - 1) + k * xs[hi - 1];
    }
  }

  /** Sums of the same stretch of two series that agree on it. */
  lemma {:induction false} SumAgrees(xs: seq<real>, ys: seq<real>, lo: nat, hi: nat)
    requires lo <= hi <= |xs| && hi <= |ys|
    requires forall j :: lo <= j < hi ==> ys[j] == xs[j]
    ensures Sum(ys, lo, hi) == Sum(xs, lo, hi)
  {
    if lo < hi {
      SumAgrees(xs, ys, lo, hi - 1);
    }
  }

  lemma EqualProducts(x: real, y: real, z: real)
    requires z != 0.0 && x * z == y * z
    ensures x == y
  {
    assert (x - y) * z == 0.0;
  }

  lemma QuotientScaled(sum: real, scaled: real, k: real, w: real)
    requires w > 0.0 && scaled == k * sum
    ensures scaled / w == k * (sum / w)
  {
    var p, q := scaled / w, sum / w;
    assert p * w == scaled && q * w == sum;
    assert (k * q) * w == k * (q * w);
    EqualProducts(p, k * q, w);
  }

  lemma WindowMeanScaled(xs: seq<real>, k: real, i: nat, window: nat)
    requires 0 < window <= i + 1 <= |xs|
    ensures WindowMean(Scaled(xs, k), i, window) == k * WindowMean(xs, i, window)
  {
    var lo, hi := i + 1 - window, i + 1;
    SumScaled(xs, k, lo, hi);
    QuotientScaled(Sum(xs, lo, hi), Sum(Scaled(xs, k), lo, hi), k, window as real);
  }

  lemma WindowMeansNonNegative(closes: seq<real>, i: nat, window: nat)
    requires 0 < window <= i < |closes|
    ensures WindowMean(Gains(closes), i, window) >= 0.0
    ensures WindowMean(Losses(closes), i, window) >= 0.0
  {
    SumNonNegative(Gains(closes), i + 1 - window, i + 1);
    SumNonNegative(Losses(closes), i + 1 - window, i + 1);
  }

  /** Window sums of gains minus losses telescope to a difference of two closes. */
  lemma {:induction false} NetChangeTelescopes(closes: seq<real>, lo: nat, hi: nat)
    requires 0 < lo <= hi <= |closes|
    ensures Sum(Gains(closes), lo, hi) - Sum(Losses(closes), lo, hi) == closes[hi - 1] - closes[lo - 1]
  {
    if lo < hi {
      NetChangeTelescopes(closes, lo, hi - 1);
    }
  }

  // ---------------------------------------------------------------- the loops

  /** The SMA loop keeps one running sum, yet every value is the plain mean of its window. */
  method RollingSma(closes: seq<real>, window: nat) returns (values: seq<Option<real>>)
    requires window > 0
    ensures |values| == |closes|
    ensures forall i :: 0 <= i < |closes| ==>
              values[i] == if i + 1 < window then None else Some(WindowMean(closes, i, window))
  {
    values := [];
    var running := 0.0;
    for index := 0 to |closes|
      invariant |values| == index
      invariant running == Sum(closes, if index < window then 0 else index - window, index)
      invariant forall i :: 0 <= i < index ==>
                  values[i] == if i + 1 < window then None else Some(WindowMean(closes, i, window))
    {
      running := running + closes[index];
      if index >= window {
        SumDropFirst(closes, index - window, index + 1);
        running := running - closes[index - window];
      }
      values := values + [if index + 1 < window then None else Some(running / window as real)];
    }
  }

  /** The stretch of price changes the running sums hold after `count` closes: the first change has
      index 1, so the window fills one step later than for closes. */
  function ChangesFrom(count: nat, window: nat): nat {
    if count <= window + 1 then 0 else count - window
  }

  /** `gains` and `losses` of the source, filled by index. */
  method PriceChanges(closes: seq<real>) returns (gains: seq<real>, losses: seq<real>)
    ensures gains == Gains(closes) && losses == Losses(closes)
  {
    gains, losses := seq(|closes|, _ => 0.0), seq(|closes|, _ => 0.0);
    var index := 1;
    while index < |closes|
      invariant 1 <= index && |gains| == |losses| == |closes|
      invariant forall k :: 0 <= k < |closes| && k < index ==>
                  gains[k] == Gain(closes, k) && losses[k] == Loss(closes, k)
      invariant forall k :: index <= k < |closes| ==> gains[k] == losses[k] == 0.0
    {
      var delta := closes[index] - closes[index - 1];
      gains := gains[index := if delta > 0.0 then delta else 0.0];
      losses := losses[index := if delta < 0.0 then -delta else 0.0];
      index := index + 1;
    }
  }

  /** One turn of the loop: add the newest change and, past `window`, drop the one `window` back. */
  lemma SlideWindow(xs: seq<real>, index: nat, window: nat)
    requires 0 < window && index < |xs| && xs[0] == 0.0
    ensures Sum(xs, ChangesFrom(index + 1, window), index + 1)
         == Sum(xs, ChangesFrom(index, window), index)
             + xs[index] - (if index > window then xs[index - window] else 0.0)
  {
    if index > window {
      if index == window + 1 {
        SumDropFirst(xs, 0, index + 1);
      }
      SumDropFirst(xs, index - window, index + 1);
    }
  }

  /** The eviction test looks one step late, but the first change is zero, so nothing extra is held. */
  lemma HoldsExactlyTheWindow(xs: seq<real>, index: nat, window: nat)
    requires 0 < window <= index < |xs| && xs[0] == 0.0
    ensures Sum(xs, ChangesFrom(index + 1, window), index + 1) == Sum(xs, index + 1 - window, index + 1)
  {
    if index == window {
      SumDropFirst(xs, 0, index + 1);
    }
  }

  /** What row `i` must hold: nothing before `window` changes exist, then the plain definitions. */
  ghost predicate RsiRow(closes: seq<real>, i: nat, window: nat, rsi: Option<real>, gain: Option<real>,
                         loss: Option<real>)
    requires 0 < window && i < |closes|
  {
    if i < window then rsi == gain == loss == None
    else
      && gain == Some(WindowMean(Gains(closes), i, window))
      && loss == Some(WindowMean(Losses(closes), i, window))
      && rsi == Some(RsiAt(closes, i, window))
  }

  /** The RSI loop refines the plain definition: from index `window` on, its averages are the mean
      gain and mean loss over exactly the last `window` price changes. */
  method RollingRsi(closes: seq<real>, window: nat)
    returns (latestRsi: seq<Option<real>>, averageGain: seq<Option<real>>, averageLoss: seq<Option<real>>)
    requires window > 0
    ensures |latestRsi| == |averageGain| == |averageLoss| == |closes|
    ensures forall i :: 0 <= i < |closes| ==> RsiRow(closes, i, window, latestRsi[i], averageGain[i], averageLoss[i])
  {
    latestRsi, averageGain, averageLoss := [], [], [];
    var gains, losses := PriceChanges(closes);
    var runningGain, runningLoss := 0.0, 0.0;
    for index := 0 to |closes|
      invariant |latestRsi| == |averageGain| == |averageLoss| == index
      invariant runningGain == Sum(gains, ChangesFrom(index, window), index)
      invariant runningLoss == Sum(losses, ChangesFrom(index, window), index)
      invariant forall i :: 0 <= i < index ==> RsiRow(closes, i, window, latestRsi[i], averageGain[i], averageLoss[i])
    {
      SlideWindow(gains, index, window);
      SlideWindow(losses, index, window);
      runningGain := runningGain + gains[index];
      runningLoss := runningLoss + losses[index];
      if index > window {
        runningGain := runningGain - gains[index - window];
        runningLoss := runningLoss - losses[index - window];
      }
      var rsi, gain, loss := None, None, None;
      if index >= window {
        HoldsExactlyTheWindow(gains, index, window);
        HoldsExactlyTheWindow(losses, index, window);
        WindowMeansNonNegative(closes, index, window);
        gain, loss := Some(runningGain / window as real), Some(runningLoss / window as real);
        rsi := Some(Rsi(gain.value, loss.value));
      }
      latestRsi, averageGain, averageLoss := latestRsi + [rsi], averageGain + [gain], averageLoss + [loss];
    }
  }

  // ---------------------------------------------------------------- properties of the RSI

  /** The RSI without its inner division. */
  lemma RsiAsShare(gain: real, loss: real)
    requires gain >= 0.0 && loss >= 0.0 && gain + loss > 0.0
    ensures Rsi(gain, loss) == 100.0 * gain / (gain + loss)
  {
    if loss == 0.0 {
      assert 100.0 * gain / (gain + loss) == 100.0;
    } else {
      RelativeStrengthNonNegative(gain, loss);
      var r := gain / loss;
      assert r * loss == gain;
      assert (1.0 + r) * loss == gain + loss;
      var inner := 100.0 / (1.0 + r);
      assert inner * (1.0 + r) == 100.0;
      assert inner * (gain + loss) == 100.0 * loss by {
        calc {
          inner * (gain + loss);
          inner * ((1.0 + r) * loss);
          (inner * (1.0 + r)) * loss;
          100.0 * loss;
        }
      }
      var share := 100.0 * gain / (gain + loss);
      assert share * (gain + loss) == 100.0 * gain;
      assert (100.0 - inner) * (gain + loss) == 100.0 * gain;
      EqualProducts(100.0 - inner, share, gain + loss);
    }
  }

  /** The RSI stays within [0, 100], wherever it is defined. */
  lemma RsiInRange(closes: seq<real>, i: nat, window: nat)
    requires 0 < window <= i < |closes|
    ensures 0.0 <= RsiAt(closes, i, window) <= 100.0
  {
    WindowMeansNonNegative(closes, i, window);
    var gain, loss := WindowMean(Gains(closes), i, window), WindowMean(Losses(closes), i, window);
    if gain + loss > 0.0 {
      RsiAsShare(gain, loss);
      ShareInRange(gain, loss);
    }
  }

  lemma ShareInRange(gain: real, loss: real)
    requires gain >= 0.0 && loss >= 0.0 && gain + loss > 0.0
    ensures 0.0 <= 100.0 * gain / (gain + loss) <= 100.0
  {
    var total := gain + loss;
    var share := 100.0 * gain / total;
    assert share * total == 100.0 * gain;
    assert share > 100.0 ==> share * total > 100.0 * total;
    assert share < 0.0 ==> share * total < 0.0;
  }

  /** Average gain minus average loss is the net change over the window, per step. */
  lemma AveragesTelescope(closes: seq<real>, i: nat, window: nat)
    requires 0 < window <= i < |closes|
    ensures WindowMean(Gains(closes), i, window) - WindowMean(Losses(closes), i, window)
         == (closes[i] - closes[i - window]) / window as real
  {
    NetChangeTelescopes(closes, i + 1 - window, i + 1);
    var w := window as real;
    var g, l := Sum(Gains(closes), i + 1 - window, i + 1), Sum(Losses(closes), i + 1 - window, i + 1);
    assert g / w - l / w == (g - l) / w;
  }

  function Reflected(closes: seq<real>, k: real): (r: seq<real>)
    ensures |r| == |closes|
  {
    seq(|closes|, i requires 0 <= i < |closes| => k - closes[i])
  }

  lemma ScaledChange(closes: seq<real>, k: real, i: nat)
    requires k > 0.0 && i < |closes|
    ensures Gain(Scaled(closes, k), i) == k * Gain(closes, i)
    ensures Loss(Scaled(closes, k), i) == k * Loss(closes, i)
  {
    if i > 0 {
      var d := closes[i] - closes[i - 1];
      assert k * closes[i] - k * closes[i - 1] == k * d;
      assert d > 0.0 ==> k * d > 0.0;
      assert d < 0.0 ==> k * d < 0.0;
    }
  }

  lemma ScaledChanges(closes: seq<real>, k: real)
    requires k > 0.0
    ensures Gains(Scaled(closes, k)) == Scaled(Gains(closes), k)
    ensures Losses(Scaled(closes, k)) == Scaled(Losses(closes), k)
  {
    forall j | 0 <= j < |closes|
      ensures Gains(Scaled(closes, k))[j] == Scaled(Gains(closes), k)[j]
      ensures Losses(Scaled(closes, k))[j] == Scaled(Losses(closes), k)[j]
    {
      ScaledChange(closes, k, j);
    }
  }

  /** Changing the price unit does not change the RSI. */
  lemma RsiScaleInvariant(closes: seq<real>, k: real, i: nat, window: nat)
    requires k > 0.0 && 0 < window <= i < |closes|
    ensures RsiAt(Scaled(closes, k), i, window) == RsiAt(closes, i, window)
  {
    var scaled := Scaled(closes, k);
    var gain, loss := WindowMean(Gains(closes), i, window), WindowMean(Losses(closes), i, window);
    ScaledChanges(closes, k);
    WindowMeansNonNegative(closes, i, window);
    WindowMeansNonNegative(scaled, i, window);
    assert WindowMean(Gains(scaled), i, window) == k * gain by {
      WindowMeanScaled(Gains(closes), k, i, window);
    }
    assert WindowMean(Losses(scaled), i, window) == k * loss by {
      WindowMeanScaled(Losses(closes), k, i, window);
    }
    calc {
      RsiAt(scaled, i, window);
      Rsi(k * gain, k * loss);
      { RsiOfMultiples(gain, loss, k); }
      Rsi(gain, loss);
      RsiAt(closes, i, window);
    }
  }

  lemma RsiOfMultiples(gain: real, loss: real, k: real)
    requires gain >= 0.0 && loss >= 0.0 && k > 0.0
    ensures k * gain >= 0.0 && k * loss >= 0.0
    ensures Rsi(k * gain, k * loss) == Rsi(gain, loss)
  {
    if gain + loss > 0.0 {
      assert k * (gain + loss) > 0.0;
      RsiAsShare(gain, loss);
      RsiAsShare(k * gain, k * loss);
      ShareScaled(gain, loss, k);
    }
  }

  lemma ShareScaled(gain: real, loss: real, k: real)
    requires gain >= 0.0 && loss >= 0.0 && gain + loss > 0.0 && k > 0.0
    ensures k * gain + k * loss > 0.0
    ensures 100.0 * (k * gain) / (k * gain + k * loss) == 100.0 * gain / (gain + loss)
  {
    var total := gain + loss;
    assert k * gain + k * loss == k * total;
    assert k * total > 0.0;
    var x := 100.0 * gain / total;
    var y := 100.0 * (k * gain) / (k * total);
    assert x * total == 100.0 * gain;
    assert y * (k * total) == 100.0 * (k * gain);
    assert x * (k * total) == k * (x * total);
    EqualProducts(x, y, k * total);
  }

  /** Reflecting the price series exchanges gains and losses, so the RSI becomes 100 - RSI. */
  lemma RsiReflection(closes: seq<real>, k: real, i: nat, window: nat)
    requires 0 < window <= i < |closes|
    ensures RsiAt(Reflected(closes, k), i, window) == 100.0 - RsiAt(closes, i, window)
  {
    assert Gains(Reflected(closes, k)) == Losses(closes);
    assert Losses(Reflected(closes, k)) == Gains(closes);
    WindowMeansNonNegative(closes, i, window);
    var gain, loss := WindowMean(Gains(closes), i, window), WindowMean(Losses(closes), i, window);
    if gain + loss > 0.0 {
      RsiAsShare(gain, loss);
      RsiAsShare(loss, gain);
      SharesAddUp(gain, loss);
    }
  }

  lemma SharesAddUp(gain: real, loss: real)
    requires gain >= 0.0 && loss >= 0.0 && gain + loss > 0.0
    ensures 100.0 * gain / (gain + loss) + 100.0 * loss / (gain + loss) == 100.0
  {
    var total := gain + loss;
    var x, y := 100.0 * gain / total, 100.0 * loss / total;
    assert x * total == 100.0 * gain && y * total == 100.0 * loss;
    assert (x + y) * total == x * total + y * total;
    EqualProducts(x + y, 100.0, total);
  }

  /** No look-ahead: the indicators at row `i` are those of the series cut after row `i`. */
  lemma IndicatorsIgnoreTheFuture(closes: seq<real>, n: nat, i: nat, window: nat)
    requires 0 < window && i < n <= |closes|
    ensures window <= i + 1 ==> WindowMean(closes[..n], i, window) == WindowMean(closes, i, window)
    ensures window <= i ==> RsiAt(closes[..n], i, window) == RsiAt(closes, i, window)
  {
    var cut := closes[..n];
    if window <= i + 1 {
      SumAgrees(closes, cut, i + 1 - window, i + 1);
    }
    if window <= i {
      SumAgrees(Gains(closes), Gains(cut), i + 1 - window, i + 1);
      SumAgrees(Losses(closes), Losses(cut), i + 1 - window, i + 1);
    }
  }

  // ---------------------------------------------------------------- postures

  datatype SmaPosture = SmaInsufficientHistory | BullishRiskOn | DefensiveRiskOff

  datatype RsiPosture = RsiInsufficientHistory | OversoldBuyCandidate | OverboughtCashCandidate | NeutralNoTrade

  function SmaPostureOf(usableBarCount: nat, shortSma: Option<real>, longSma: Option<real>): SmaPosture {
    if usableBarCount < SMA_LONG_WINDOW then SmaInsufficientHistory
    else if shortSma.Some? && longSma.Some? && shortSma.value > longSma.value then BullishRiskOn
    else DefensiveRiskOff
  }

  function RsiPostureOf(usableBarCount: nat, latestRsi: Option<real>): RsiPosture {
    if usableBarCount < RSI_LOOKBACK_WINDOW + 1 then RsiInsufficientHistory
    else if latestRsi.Some? && latestRsi.value <= 30.0 then OversoldBuyCandidate
    else if latestRsi.Some? && latestRsi.value >= 70.0 then OverboughtCashCandidate
    else NeutralNoTrade
  }

  function Mirrored(posture: RsiPosture): RsiPosture {
    match posture
    case OversoldBuyCandidate => OverboughtCashCandidate
    case OverboughtCashCandidate => OversoldBuyCandidate
    case _ => posture
  }

  /** Reflecting the price series exchanges the oversold and overbought postures and no others. */
  lemma ReflectionMirrorsPostures(closes: seq<real>, k: real, i: nat)
    requires RSI_LOOKBACK_WINDOW <= i < |closes|
    ensures RsiPostureOf(i + 1, Some(RsiAt(Reflected(closes, k), i, RSI_LOOKBACK_WINDOW)))
         == Mirrored(RsiPostureOf(i + 1, Some(RsiAt(closes, i, RSI_LOOKBACK_WINDOW))))
  {
    RsiReflection(closes, k, i, RSI_LOOKBACK_WINDOW);
  }

  datatype Metrics = Metrics(shortSma: seq<Option<real>>, longSma: seq<Option<real>>, latestRsi: seq<Option<real>>)

  /** The postures of every row, from the rolling metrics of the closes. A row lacks history exactly
      when its indicator is None, the defensive posture means the short mean is not above the long
      one, and the RSI thresholds compare the two means of price changes. */
  method RowPostures(closes: seq<real>) returns (metrics: Metrics, sma: seq<SmaPosture>, rsi: seq<RsiPosture>)
    ensures |sma| == |rsi| == |closes| == |metrics.longSma| == |metrics.latestRsi|
    ensures forall i :: 0 <= i < |closes| ==> (sma[i].SmaInsufficientHistory? <==> metrics.longSma[i] == None)
    ensures forall i :: 0 <= i < |closes| ==> (rsi[i].RsiInsufficientHistory? <==> metrics.latestRsi[i] == None)
    ensures forall i :: 199 <= i < |closes| ==>
              (sma[i].BullishRiskOn? <==> WindowMean(closes, i, 50) > WindowMean(closes, i, 200))
    ensures forall i :: 14 <= i < |closes| ==>
              rsi[i] == ChangePosture(WindowMean(Gains(closes), i, 14), WindowMean(Losses(closes), i, 14))
  {
    var shortSma := RollingSma(closes, SMA_SHORT_WINDOW);
    var longSma := RollingSma(closes, SMA_LONG_WINDOW);
    var latestRsi, averageGain, averageLoss := RollingRsi(closes, RSI_LOOKBACK_WINDOW);
    metrics := Metrics(shortSma, longSma, latestRsi);
    sma, rsi := [], [];
    for index := 0 to |closes|
      invariant |sma| == |rsi| == index
      invariant forall i :: 0 <= i < index ==> sma[i] == SmaPostureOf(i + 1, shortSma[i], longSma[i])
      invariant forall i :: 0 <= i < index ==> rsi[i] == RsiPostureOf(i + 1, latestRsi[i])
    {
      sma := sma + [SmaPostureOf(index + 1, shortSma[index], longSma[index])];
      rsi := rsi + [RsiPostureOf(index + 1, latestRsi[index])];
    }
    forall i | RSI_LOOKBACK_WINDOW <= i < |closes|
      ensures rsi[i] == ChangePosture(WindowMean(Gains(closes), i, RSI_LOOKBACK_WINDOW),
                                      WindowMean(Losses(closes), i, RSI_LOOKBACK_WINDOW))
    {
      WindowMeansNonNegative(closes, i, RSI_LOOKBACK_WINDOW);
      ThresholdsCompareMeans(i + 1, WindowMean(Gains(closes), i, RSI_LOOKBACK_WINDOW),
                             WindowMean(Losses(closes), i, RSI_LOOKBACK_WINDOW));
    }
  }

  /** The RSI posture read off the mean gain and mean loss, without computing the RSI. */
  function ChangePosture(gain: real, loss: real): RsiPosture {
    if gain == 0.0 && loss == 0.0 then NeutralNoTrade
    else if 7.0 * gain <= 3.0 * loss then OversoldBuyCandidate
    else if 7.0 * loss <= 3.0 * gain then OverboughtCashCandidate
    else NeutralNoTrade
  }

  lemma ThresholdsCompareMeans(usableBarCount: nat, gain: real, loss: real)
    requires usableBarCount >= RSI_LOOKBACK_WINDOW + 1 && gain >= 0.0 && loss >= 0.0
    ensures RsiPostureOf(usableBarCount, Some(Rsi(gain, loss))) == ChangePosture(gain, loss)
  {
    if gain + loss > 0.0 {
      RsiAsShare(gain, loss);
      ShareThresholds(gain, loss);
    }
  }

  lemma ShareThresholds(gain: real, loss: real)
    requires gain >= 0.0 && loss >= 0.0 && gain + loss > 0.0
    ensures 100.0 * gain / (gain + loss) <= 30.0 <==> 7.0 * gain <= 3.0 * loss
    ensures 100.0 * gain / (gain + loss) >= 70.0 <==> 7.0 * loss <= 3.0 * gain
  {
    var total := gain + loss;
    var share := 100.0 * gain / total;
    assert share * total == 100.0 * gain;
    ProductOrder(share, 30.0, total);
    ProductOrder(70.0, share, total);
  }

  lemma ProductOrder(x: real, y: real, z: real)
    requires z > 0.0
    ensures x <= y <==> x * z <= y * z
  {
    assert (y - x) * z == y * z - x * z;
  }
}
