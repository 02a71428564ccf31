/** Price bars as the quote provider returns them, the outcome of an
    indicator, and the folds over a bar series that the indicators are
    specified by. Prices are exact reals, not doubles. */
module Series {

  /** One period of a historical series: its open, high, low and close. */
  datatype Bar = Bar(open: real, high: real, low: real, close: real)

  /** Why an indicator has no numeric value.
      NoBars: the series is empty, so the loop never reaches the last index
      where the source settles its promise, and no value is ever produced.
      ZeroOverZero: the double arithmetic of the source evaluates 0/0 (NaN). */
  datatype Failure = NoBars | ZeroOverZero

  datatype Result<T> = Ok(value: T) | Err(failure: Failure)

  function Close(b: Bar): real { b.close }
  function High(b: Bar): real { b.high }
  function Low(b: Bar): real { b.low }

  /** A bar that closed above its open ("up"). */
  predicate Rising(b: Bar) { b.close > b.open }

  /** A bar that closed below its open ("down"). */
  predicate Falling(b: Bar) { b.close < b.open }

  /** The sum of f over the bars, accumulated from the first bar on, as the
      source's loops do. */
  function SumOf(bars: seq<Bar>, f: Bar -> real): real
    decreases |bars|
  {
    if bars == [] then 0.0
    else SumOf(bars[..|bars| - 1], f) + f(bars[|bars| - 1])
  }

  /** The number of bars that satisfy p. */
  function CountOf(bars: seq<Bar>, p: Bar -> bool): nat
    decreases |bars|
  {
    if bars == [] then 0
    else CountOf(bars[..|bars| - 1], p) + (if p(bars[|bars| - 1]) then 1 else 0)
  }

  /** The arithmetic mean of f over the bars; an empty series has none. */
  function Mean(bars: seq<Bar>, f: Bar -> real): Result<real>
  {
    if bars == [] then Err(NoBars) else Ok(SumOf(bars, f) / |bars| as real)
  }

  /** One more step of a loop over bars[..i]. */
  lemma SumOfSnoc(bars: seq<Bar>, f: Bar -> real, i: nat)
    requires i < |bars|
    ensures SumOf(bars[..i + 1], f) == SumOf(bars[..i], f) + f(bars[i])
  {
    assert bars[..i + 1][..i] == bars[..i];
  }

  lemma CountOfSnoc(bars: seq<Bar>, p: Bar -> bool, i: nat)
    requires i < |bars|
    ensures CountOf(bars[..i + 1], p) == CountOf(bars[..i], p) + (if p(bars[i]) then 1 else 0)
  {
    assert bars[..i + 1][..i] == bars[..i];
  }

  /** A term that is the same on every bar sums to n times that value. */
  lemma {:induction false} SumOfConstant(bars: seq<Bar>, f: Bar -> real, c: real)
    requires forall i :: 0 <= i < |bars| ==> f(bars[i]) == c
    ensures SumOf(bars, f) == |bars| as real * c
  {
    if bars != [] {
      var k := |bars| - 1;
      assert forall i :: 0 <= i < k ==> bars[..k][i] == bars[i];
      SumOfConstant(bars[..k], f, c);
    }
  }

  /** A term that is at least another on every bar has at least its sum. */
  lemma {:induction false} SumOfDominates(bars: seq<Bar>, f: Bar -> real, g: Bar -> real)
    requires forall i :: 0 <= i < |bars| ==> f(bars[i]) >= g(bars[i])
    ensures SumOf(bars, f) >= SumOf(bars, g)
  {
    if bars != [] {
      var k := |bars| - 1;
      assert forall i :: 0 <= i < k ==> bars[..k][i] == bars[i];
      SumOfDominates(bars[..k], f, g);
    }
  }

  /** A count is zero exactly when no bar satisfies the predicate. */
  lemma {:induction false} CountOfZero(bars: seq<Bar>, p: Bar -> bool)
    ensures CountOf(bars, p) == 0 <==> forall i :: 0 <= i < |bars| ==> !p(bars[i])
  {
    if bars != [] {
      var k := |bars| - 1;
      assert forall i :: 0 <= i < k ==> bars[..k][i] == bars[i];
      CountOfZero(bars[..k], p);
    }
  }

  /** Two predicates that no bar satisfies together count at most n bars. */
  lemma {:induction false} CountOfDisjoint(bars: seq<Bar>, p: Bar -> bool, q: Bar -> bool)
    requires forall i :: 0 <= i < |bars| ==> !(p(bars[i]) && q(bars[i]))
    ensures CountOf(bars, p) + CountOf(bars, q) <= |bars|
  {
    if bars != [] {
      var k := |bars| - 1;
      assert forall i :: 0 <= i < k ==> bars[..k][i] == bars[i];
      CountOfDisjoint(bars[..k], p, q);
    }
  }

  /** The mean of a constant term is that constant. */
  lemma MeanOfConstant(bars: seq<Bar>, f: Bar -> real, c: real)
    requires bars != []
    requires forall i :: 0 <= i < |bars| ==> f(bars[i]) == c
    ensures Mean(bars, f) == Ok(c)
  {
    SumOfConstant(bars, f, c);
    var n := |bars| as real;
    assert SumOf(bars, f) / n == (n * c) / n == c;
  }

  /** The mean keeps a bar-by-bar ordering of two terms. */
  lemma MeanDominates(bars: seq<Bar>, f: Bar -> real, g: Bar -> real)
    requires bars != []
    requires forall i :: 0 <= i < |bars| ==> f(bars[i]) >= g(bars[i])
    ensures Mean(bars, f).Ok? && Mean(bars, g).Ok?
    ensures Mean(bars, f).value >= Mean(bars, g).value
  {
    SumOfDominates(bars, f, g);
    var n := |bars| as real;
    var a, b := SumOf(bars, f), SumOf(bars, g);
    assert a / n - b / n == (a - b) / n;
  }
}
