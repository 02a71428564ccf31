/** The accumulator loops of the stock watcher's indicators (app.js,
    createStockWatch), each over the bar series the provider returned for
    the window. Sma, Mahl, Rsi and Atr are proved equal to a fold of module
    Series; MaxClose and MinClose are proved to be the bound that some bar
    attains. The lemmas state what the indicators mean. */
module Indicators {
  import opened Series

  /** getMax: the running maximum of the closes, seeded with 0, so the
      result is the larger of 0 and the highest close. */
  method MaxClose(bars: seq<Bar>) returns (max: real)
    ensures max >= 0.0
    ensures forall i :: 0 <= i < |bars| ==> bars[i].close <= max
    ensures max == 0.0 || exists i :: 0 <= i < |bars| && bars[i].close == max
    ensures (forall i :: 0 <= i < |bars| ==> bars[i].close <= 0.0) ==> max == 0.0
  {
    max := 0.0;
    for i := 0 to |bars|
      invariant max >= 0.0
      invariant forall j :: 0 <= j < i ==> bars[j].close <= max
      invariant max == 0.0 || exists j :: 0 <= j < i && bars[j].close == max
    {
      if bars[i].close > max {
        max := bars[i].close;
      }
    }
  }

  /** getMin, as its comment describes it: a running minimum of the closes
      seeded with the maximum of the same series. (The source calls
      getMax without a period and assigns each smaller close to `max`
      instead of `min`; the model tracks the minimum.) */
  method MinClose(bars: seq<Bar>) returns (min: real)
    ensures bars == [] ==> min == 0.0
    ensures forall i :: 0 <= i < |bars| ==> min <= bars[i].close
    ensures bars != [] ==> exists i :: 0 <= i < |bars| && bars[i].close == min
  {
    min := MaxClose(bars);
    ghost var seed := min;
    for i := 0 to |bars|
      invariant min <= seed
      invariant forall j :: 0 <= j < i ==> min <= bars[j].close
      invariant min == seed || exists j :: 0 <= j < i && bars[j].close == min
    {
      if bars[i].close < min {
        min := bars[i].close;
      }
    }
    if bars != [] && min == seed {
      assert bars[0].close == min;
    }
  }

  /** getSMA: the sum of the closes divided by their number, emitted when
      the loop reaches the last bar. */
  method Sma(bars: seq<Bar>) returns (sma: Result<real>)
    ensures sma == Mean(bars, Close)
  {
    sma := Err(NoBars);
    var sum := 0.0;
    for i := 0 to |bars|
      invariant sum == SumOf(bars[..i], Close)
      invariant sma == if 0 < i && i == |bars| then Ok(sum / |bars| as real) else Err(NoBars)
    {
      SumOfSnoc(bars, Close, i);
      sum := sum + bars[i].close;
      if i == |bars| - 1 {
        sma := Ok(sum / |bars| as real);
      }
    }
    assert bars[..|bars|] == bars;
  }

  /** The pair getMAHL settles with. */
  datatype HighLow = HighLow(maHigh: real, maLow: real)

  /** getMAHL: the mean high and the mean low, accumulated in one pass. */
  method Mahl(bars: seq<Bar>) returns (r: Result<HighLow>)
    ensures r.Err? <==> bars == []
    ensures r.Err? ==> r.failure == NoBars
    ensures r.Ok? ==> Mean(bars, High) == Ok(r.value.maHigh) && Mean(bars, Low) == Ok(r.value.maLow)
    ensures r.Ok? && (forall i :: 0 <= i < |bars| ==> bars[i].high >= bars[i].low)
            ==> r.value.maHigh >= r.value.maLow
  {
    r := Err(NoBars);
    var high, low := 0.0, 0.0;
    for i := 0 to |bars|
      invariant high == SumOf(bars[..i], High) && low == SumOf(bars[..i], Low)
      invariant r == if 0 < i && i == |bars|
                     then Ok(HighLow(high / |bars| as real, low / |bars| as real))
                     else Err(NoBars)
    {
      SumOfSnoc(bars, High, i);
      SumOfSnoc(bars, Low, i);
      high := high + bars[i].high;
      low := low + bars[i].low;
      if i == |bars| - 1 {
        r := Ok(HighLow(high / |bars| as real, low / |bars| as real));
      }
    }
    assert bars[..|bars|] == bars;
    if r.Ok? && forall i :: 0 <= i < |bars| ==> bars[i].high >= bars[i].low {
      MeanDominates(bars, High, Low);
    }
  }

  /** The formula of app.js:220, 100 - 100 / (1 + (up/n) / (down/n)), over
      exact reals. With down == 0 the source divides by zero: up/n / 0 is
      +Infinity when up > 0, which drives the formula to 100, and NaN when
      up == 0. */
  function RsiRatio(up: nat, down: nat, n: nat): Result<real>
    requires n > 0
  {
    var u, d, m := up as real, down as real, n as real;
    if down == 0 then
      if up == 0 then Err(ZeroOverZero) else Ok(100.0)
    else
      Ok(100.0 - 100.0 / (1.0 + (u / m) / (d / m)))
  }

  /** The simplified RSI of a series: up bars against down bars. */
  function RsiOf(bars: seq<Bar>): Result<real>
  {
    if bars == [] then Err(NoBars)
    else RsiRatio(CountOf(bars, Rising), CountOf(bars, Falling), |bars|)
  }

  /** getRSI: counts the up bars and the down bars in one pass and emits
      the ratio formula at the last bar. */
  method Rsi(bars: seq<Bar>) returns (rsi: Result<real>)
    ensures rsi == RsiOf(bars)
  {
    rsi := Err(NoBars);
    var up, down := 0, 0;
    for i := 0 to |bars|
      invariant up == CountOf(bars[..i], Rising) && down == CountOf(bars[..i], Falling)
      invariant rsi == if 0 < i && i == |bars| then RsiRatio(up, down, |bars|) else Err(NoBars)
    {
      CountOfSnoc(bars, Rising, i);
      CountOfSnoc(bars, Falling, i);
      if bars[i].close > bars[i].open {
        up := up + 1;
      }
      if bars[i].close < bars[i].open {
        down := down + 1;
      }
      if i == |bars| - 1 {
        rsi := RsiRatio(up, down, |bars|);
      }
    }
    assert bars[..|bars|] == bars;
  }

  /** A quotient is the one number that times the divisor gives the dividend. */
  lemma QuotientUnique(x: real, y: real, z: real)
    requires z != 0.0 && x * z == y
    ensures x == y / z
  {
  }

  /** (u/n) / (d/n) == u/d for positive n and d. */
  lemma CancelCount(u: real, d: real, n: real)
    requires d > 0.0 && n > 0.0
    ensures (u / n) / (d / n) == u / d
  {
  }

  /** Whenever some bar moved, the formula is the share of up bars among
      the bars that moved, scaled to 100. */
  lemma RsiClosedForm(up: nat, down: nat, n: nat)
    requires n > 0 && up + down > 0
    ensures RsiRatio(up, down, n) == Ok(100.0 * up as real / (up + down) as real)
  {
    var u, d := up as real, down as real;
    var s := u + d;
    if down > 0 {
      CancelCount(u, d, n as real);
      var q := u / d;
      assert q * d == u;
      assert (1.0 + q) * d == s;
      QuotientUnique(1.0 + q, s, d);
      var t := 100.0 / (1.0 + q);
      assert t * (1.0 + q) == 100.0;
      assert t * s == 100.0 * d by {
        assert t * s == t * (1.0 + q) * d;
      }
      QuotientUnique(t, 100.0 * d, s);
      assert (100.0 - t) * s == 100.0 * u;
      QuotientUnique(100.0 - t, 100.0 * u, s);
    } else {
      QuotientUnique(100.0, 100.0 * u, u);
    }
  }

  /** 100 u / s for 0 <= u <= s lies in [0, 100], is below 100 exactly when
      u < s, and is 50 when u is half of s. */
  lemma ShareBounds(u: real, s: real)
    requires 0.0 <= u <= s && s > 0.0
    ensures 0.0 <= 100.0 * u / s <= 100.0
    ensures 100.0 * u / s < 100.0 <==> u < s
    ensures 2.0 * u == s ==> 100.0 * u / s == 50.0
  {
  }

  /** An up bar is never a down bar, so up + down <= n. */
  lemma RsiCountsBounded(bars: seq<Bar>)
    ensures CountOf(bars, Rising) + CountOf(bars, Falling) <= |bars|
  {
    CountOfDisjoint(bars, Rising, Falling);
  }

  /** The RSI lies in [0, 100]; it is below 100 exactly when some bar fell
      and exactly 50 when as many bars rose as fell (and some did). */
  lemma RsiRange(bars: seq<Bar>)
    requires RsiOf(bars).Ok?
    ensures 0.0 <= RsiOf(bars).value <= 100.0
    ensures RsiOf(bars).value < 100.0 <==> CountOf(bars, Falling) > 0
    ensures CountOf(bars, Rising) == CountOf(bars, Falling) ==> RsiOf(bars).value == 50.0
  {
    var up, down := CountOf(bars, Rising), CountOf(bars, Falling);
    assert up + down > 0;
    RsiClosedForm(up, down, |bars|);
    ShareBounds(up as real, (up + down) as real);
  }

  /** The RSI is undefined (NaN in the source) exactly on a non-empty series
      in which every bar closed at its open. */
  lemma RsiUndefined(bars: seq<Bar>)
    ensures RsiOf(bars) == Err(ZeroOverZero)
            <==> bars != [] && forall i :: 0 <= i < |bars| ==> bars[i].close == bars[i].open
  {
    CountOfZero(bars, Rising);
    CountOfZero(bars, Falling);
  }

  /** The per-bar term of getATR (app.js:244-254): high - low for method 1,
      |high - close| for method 2, |low - close| for method 3, and nothing
      for any other method. */
  function TrueRange(b: Bar, rangeMethod: int): real
  {
    if rangeMethod == 1 then b.high - b.low
    else if rangeMethod == 2 then Abs(b.high - b.close)
    else if rangeMethod == 3 then Abs(b.low - b.close)
    else 0.0
  }

  function Abs(x: real): real { if x < 0.0 then -x else x }

  function RangeOf(rangeMethod: int): Bar -> real
  {
    b => TrueRange(b, rangeMethod)
  }

  /** getATR: the mean of the chosen per-bar term. */
  method Atr(bars: seq<Bar>, rangeMethod: int) returns (atr: Result<real>)
    ensures atr == Mean(bars, RangeOf(rangeMethod))
  {
    atr := Err(NoBars);
    var sum := 0.0;
    for i := 0 to |bars|
      invariant sum == SumOf(bars[..i], RangeOf(rangeMethod))
      invariant atr == if 0 < i && i == |bars| then Ok(sum / |bars| as real) else Err(NoBars)
    {
      SumOfSnoc(bars, RangeOf(rangeMethod), i);
      if rangeMethod == 1 {
        sum := sum + bars[i].high - bars[i].low;
      } else if rangeMethod == 2 {
        sum := sum + Abs(bars[i].high - bars[i].close);
      } else if rangeMethod == 3 {
        sum := sum + Abs(bars[i].low - bars[i].close);
      }
      if i == |bars| - 1 {
        atr := Ok(sum / |bars| as real);
      }
    }
    assert bars[..|bars|] == bars;
  }

  /** SMA of a series whose every close is c is c. */
  lemma SmaOfConstantSeries(bars: seq<Bar>, c: real)
    requires bars != []
    requires forall i :: 0 <= i < |bars| ==> bars[i].close == c
    ensures Mean(bars, Close) == Ok(c)
  {
    MeanOfConstant(bars, Close, c);
  }

  /** Method 1 on bars whose high equals their low gives an ATR of 0. */
  lemma AtrOfFlatBars(bars: seq<Bar>)
    requires bars != []
    requires forall i :: 0 <= i < |bars| ==> bars[i].high == bars[i].low
    ensures Mean(bars, RangeOf(1)) == Ok(0.0)
  {
    MeanOfConstant(bars, RangeOf(1), 0.0);
  }

  /** A method other than 1, 2 and 3 adds nothing, so the ATR is 0. */
  lemma AtrOfUnknownMethod(bars: seq<Bar>, rangeMethod: int)
    requires bars != []
    requires rangeMethod != 1 && rangeMethod != 2 && rangeMethod != 3
    ensures Mean(bars, RangeOf(rangeMethod)) == Ok(0.0)
  {
    MeanOfConstant(bars, RangeOf(rangeMethod), 0.0);
  }

  /** Methods 2 and 3 never give a negative ATR, nor does method 1 on bars
      whose high is at least their low. */
  lemma AtrNonNegative(bars: seq<Bar>, rangeMethod: int)
    requires bars != []
    requires rangeMethod == 2 || rangeMethod == 3
             || (rangeMethod == 1 && forall i :: 0 <= i < |bars| ==> bars[i].high >= bars[i].low)
    ensures Mean(bars, RangeOf(rangeMethod)).value >= 0.0
  {
    MeanDominates(bars, RangeOf(rangeMethod), RangeOf(0));
    MeanOfConstant(bars, RangeOf(0), 0.0);
  }
}
