/** The two advisory heuristics of the stock watcher (isGoodToBuy and
    isGoodToSell): each counts two signals into `good` and `not` and
    recommends when `precision <= good / not`. The RSI and the SMA are
    computed over the series their own fetches return, and the snapshot's
    last trade price is a parameter. */
module Advice {
  import opened Series
  import opened Indicators

  /** The test `precision <= good / not` over exact reals. When not == 0
      the source divides by zero: good / 0 is +Infinity for good > 0, which
      every precision is at most, and NaN for good == 0, which no
      comparison holds of. */
  function Approves(good: nat, notGood: nat, precision: real): bool
  {
    if notGood == 0 then good > 0 else precision <= good as real / notGood as real
  }

  /** With two signals the ratio is +Infinity, 1 or 0: both confirming
      always recommends, one of two recommends when precision is at most 1,
      and none when precision is at most 0. */
  lemma ApprovesTwoSignals(good: nat, notGood: nat, precision: real)
    requires good + notGood == 2
    ensures Approves(good, notGood, precision)
            <==> good == 2 || (good == 1 && precision <= 1.0) || precision <= 0.0
  {
  }

  /** A lower precision never withdraws a recommendation. */
  lemma ApprovesMonotone(good: nat, notGood: nat, p: real, q: real)
    requires p <= q && Approves(good, notGood, q)
    ensures Approves(good, notGood, p)
  {
  }

  /** The RSI signals; an undefined RSI (NaN) fails both comparisons. */
  predicate Oversold(rsi: Result<real>) { rsi.Ok? && rsi.value <= 30.0 }
  predicate Overbought(rsi: Result<real>) { rsi.Ok? && rsi.value >= 70.0 }

  /** isGoodToBuy: an oversold RSI and an SMA above the last trade price are
      the good signals. Nothing is decided when either series is empty,
      since then the indicator never settles. */
  method IsGoodToBuy(rsiBars: seq<Bar>, smaBars: seq<Bar>, lastTradePrice: real, precision: real)
    returns (buy: Result<bool>)
    ensures buy.Err? <==> rsiBars == [] || smaBars == []
    ensures buy.Err? ==> buy.failure == NoBars
    ensures buy.Ok? ==>
              var oversold := Oversold(RsiOf(rsiBars));
              var above := smaBars != [] && Mean(smaBars, Close).value > lastTradePrice;
              (buy.value <==> (oversold && above) || ((oversold || above) && precision <= 1.0) || precision <= 0.0)
  {
    var good, notGood := 0, 0;
    var rsi := Rsi(rsiBars);
    if rsi == Err(NoBars) {
      return Err(NoBars);
    }
    if rsi.Ok? && rsi.value <= 30.0 {
      good := good + 1;
    } else {
      notGood := notGood + 1;
    }
    var sma := Sma(smaBars);
    if sma == Err(NoBars) {
      return Err(NoBars);
    }
    if sma.value > lastTradePrice {
      good := good + 1;
    } else {
      notGood := notGood + 1;
    }
    ApprovesTwoSignals(good, notGood, precision);
    buy := Ok(Approves(good, notGood, precision));
  }

  /** isGoodToSell: an overbought RSI and an SMA below the last trade price
      are the good signals. */
  method IsGoodToSell(rsiBars: seq<Bar>, smaBars: seq<Bar>, lastTradePrice: real, precision: real)
    returns (sell: Result<bool>)
    ensures sell.Err? <==> rsiBars == [] || smaBars == []
    ensures sell.Err? ==> sell.failure == NoBars
    ensures sell.Ok? ==>
              var overbought := Overbought(RsiOf(rsiBars));
              var below := smaBars != [] && Mean(smaBars, Close).value < lastTradePrice;
              (sell.value <==> (overbought && below) || ((overbought || below) && precision <= 1.0) || precision <= 0.0)
  {
    var good, notGood := 0, 0;
    var rsi := Rsi(rsiBars);
    if rsi == Err(NoBars) {
      return Err(NoBars);
    }
    if rsi.Ok? && rsi.value >= 70.0 {
      good := good + 1;
    } else {
      notGood := notGood + 1;
    }
    var sma := Sma(smaBars);
    if sma == Err(NoBars) {
      return Err(NoBars);
    }
    if sma.value < lastTradePrice {
      good := good + 1;
    } else {
      notGood := notGood + 1;
    }
    ApprovesTwoSignals(good, notGood, precision);
    sell := Ok(Approves(good, notGood, precision));
  }
}
