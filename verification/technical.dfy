/** The indicator library of the Pain/Gain strategy: EMA-based colour labels
    (snake, shingle, squid, purple line), the Fibonacci table, the D1 wick bias,
    the H4 coverage test and the purple-line break/retest detector. */
module Indicators {
  import opened Market

  /** An EMA span; pandas refuses a span below 1. */
  type Period = p: nat | p >= 1 witness 1

  /** Smoothing factor of `ewm(span=p, adjust=False)`. */
  function Alpha(p: Period): (a: real)
    ensures 0.0 < a <= 1.0
  {
    2.0 / ((p as real) + 1.0)
  }

  /** One smoothing step: the new value weighted by `a`, the previous average by `1 - a`. */
  function Smooth(a: real, x: real, e: real): real {
    a * x + (1.0 - a) * e
  }

  /** `ewm(span=p, adjust=False).mean()`: seeded with the first value, then
      e[i] = Smooth(a, x[i], e[i-1]). */
  function Ema(xs: seq<real>, p: Period): (r: seq<real>)
    ensures |r| == |xs|
    decreases |xs|
  {
    if |xs| == 0 then []
    else if |xs| == 1 then [xs[0]]
    else
      var prev := Ema(xs[..|xs| - 1], p);
      prev + [Smooth(Alpha(p), xs[|xs| - 1], prev[|prev| - 1])]
  }

  lemma EmaStep(xs: seq<real>, p: Period)
    requires |xs| > 1
    ensures Ema(xs, p)[..|xs| - 1] == Ema(xs[..|xs| - 1], p)
    ensures Ema(xs, p)[|xs| - 1] == Smooth(Alpha(p), xs[|xs| - 1], Ema(xs, p)[|xs| - 2])
  {
  }

  /** Every EMA value obeys the recurrence, and the series starts at its seed. */
  lemma {:induction false} EmaRecurrence(xs: seq<real>, p: Period, i: nat)
    requires i < |xs|
    ensures i == 0 ==> Ema(xs, p)[0] == xs[0]
    ensures i > 0 ==> Ema(xs, p)[i] == Smooth(Alpha(p), xs[i], Ema(xs, p)[i - 1])
  {
    if |xs| > 1 && i < |xs| - 1 {
      var init := xs[..|xs| - 1];
      EmaRecurrence(init, p, i);
      assert Ema(xs, p)[..|xs| - 1] == Ema(init, p);
      if i > 0 {
        assert Ema(xs, p)[i - 1] == Ema(init, p)[i - 1];
      }
    }
  }

  /** A constant series has an EMA equal to that constant at every index. */
  lemma {:induction false} EmaOfConstant(xs: seq<real>, p: Period, v: real)
    requires forall i :: 0 <= i < |xs| ==> xs[i] == v
    ensures forall i :: 0 <= i < |xs| ==> Ema(xs, p)[i] == v
  {
    if |xs| > 1 {
      var init := xs[..|xs| - 1];
      EmaOfConstant(init, p, v);
      var prev := Ema(init, p);
      assert Ema(xs, p)[..|xs| - 1] == prev;
      assert Ema(xs, p)[|xs| - 1] == Smooth(Alpha(p), v, v) == v;
      forall i | 0 <= i < |xs| - 1 ensures Ema(xs, p)[i] == v {
        assert Ema(xs, p)[i] == prev[i];
      }
    }
  }

  lemma NonNegProduct(u: real, v: real)
    requires u >= 0.0 && v >= 0.0
    ensures u * v >= 0.0
  {
  }
  /** Scaling a non-negative amount by a weight in `[0, 1]` keeps it in `[0, d]`. */
  lemma ScaledDown(a: real, d: real) returns (m: real)
    requires 0.0 <= a <= 1.0 && d >= 0.0
    ensures m == a * d && 0.0 <= m <= d
  {
    m := a * d;
    NonNegProduct(a, d);
    NonNegProduct(1.0 - a, d);
  }
  /** A weighted average of two values in `[lo, hi]` stays in `[lo, hi]`. */
  lemma ConvexStep(a: real, x: real, e: real, lo: real, hi: real)
    requires 0.0 < a <= 1.0 && lo <= x <= hi && lo <= e <= hi
    ensures lo <= Smooth(a, x, e) <= hi
  {
    if x >= e {
      var m := ScaledDown(a, x - e);
      assert Smooth(a, x, e) == e + m;
    } else {
      var m := ScaledDown(a, e - x);
      assert Smooth(a, x, e) == e - m;
    }
  }

  /** The EMA never leaves the range of its inputs. */
  lemma {:induction false} EmaWithinRange(xs: seq<real>, p: Period, lo: real, hi: real)
    requires forall i :: 0 <= i < |xs| ==> lo <= xs[i] <= hi
    ensures forall i :: 0 <= i < |xs| ==> lo <= Ema(xs, p)[i] <= hi
  {
    if |xs| > 1 {
      var init := xs[..|xs| - 1];
      EmaWithinRange(init, p, lo, hi);
      var prev := Ema(init, p);
      EmaStep(xs, p);
      var r := Ema(xs, p);
      assert r[|xs| - 2] == prev[|xs| - 2];
      ConvexStep(Alpha(p), xs[|xs| - 1], r[|xs| - 2], lo, hi);
      forall i | 0 <= i < |xs| ensures lo <= r[i] <= hi {
        if i < |xs| - 1 {
          assert r[i] == prev[i];
        }
      }
    }
  }

  /** `calculate_purple_line`: the EMA of the closes. */
  function PurpleLine(bars: seq<Bar>, p: Period): (r: seq<real>)
    ensures |r| == |bars|
  {
    Ema(Closes(bars), p)
  }

  /** `calculate_snake`'s colour: GREEN when the fast EMA is above the slow one at the last bar. */
  function SnakeColor(bars: seq<Bar>, fast: Period, slow: Period): (c: Color)
    requires |bars| > 0
    ensures c == Green <==> Last(Ema(Closes(bars), fast)) > Last(Ema(Closes(bars), slow))
    ensures fast == slow ==> c == Red
  {
    if Last(Ema(Closes(bars), fast)) > Last(Ema(Closes(bars), slow)) then Green else Red
  }

  /** `calculate_shingle`: the EMA and its colour, GREEN when the last close is above it. */
  function Shingle(bars: seq<Bar>, p: Period): (r: (real, Color))
    requires |bars| > 0
    ensures r.0 == Last(Ema(Closes(bars), p))
    ensures r.1 == Green <==> Last(bars).close > r.0
  {
    var ema := Last(Ema(Closes(bars), p));
    (ema, if Last(bars).close > ema then Green else Red)
  }

  /** `calculate_squid`'s colour: GREEN when the EMA rose at the last bar, or with fewer than two values. */
  function SquidColor(bars: seq<Bar>, p: Period): (c: Color)
    ensures |bars| < 2 ==> c == Green
    ensures |bars| >= 2 ==> (c == Green <==> Last(bars).close > Ema(Closes(bars), p)[|bars| - 2])
  {
    var ema := Ema(Closes(bars), p);
    if |ema| >= 2 then
      SmoothRises(Alpha(p), Last(bars).close, ema[|ema| - 2]);
      (if ema[|ema| - 1] > ema[|ema| - 2] then Green else Red)
    else Green
  }

  /** A smoothing step rises above the previous average exactly when the new value is above it. */
  lemma SmoothRises(a: real, x: real, e: real)
    requires 0.0 < a <= 1.0
    ensures Smooth(a, x, e) > e <==> x > e
  {
    assert Smooth(a, x, e) - e == a * (x - e);
    if x > e {
      PositiveProduct(a, x - e);
    } else {
      NonNegProduct(a, e - x);
    }
  }

  lemma PositiveProduct(u: real, v: real)
    requires u > 0.0 && v > 0.0
    ensures u * v > 0.0
  {
  }

  /** The shingle's level lies within the range of the closes. */
  lemma ShingleWithinCloses(bars: seq<Bar>, p: Period, lo: real, hi: real)
    requires |bars| > 0
    requires forall i :: 0 <= i < |bars| ==> lo <= bars[i].close <= hi
    ensures lo <= Shingle(bars, p).0 <= hi
  {
    EmaWithinRange(Closes(bars), p, lo, hi);
  }

  /** Ties are RED: on a flat market every colour label is RED (the squid once it has two values). */
  lemma FlatMarketIsRed(bars: seq<Bar>, v: real, fast: Period, slow: Period, p: Period)
    requires |bars| > 0
    requires forall i :: 0 <= i < |bars| ==> bars[i].close == v
    ensures SnakeColor(bars, fast, slow) == Red
    ensures Shingle(bars, p) == (v, Red)
    ensures SquidColor(bars, p) == if |bars| >= 2 then Red else Green
  {
    EmaOfConstant(Closes(bars), fast, v);
    EmaOfConstant(Closes(bars), slow, v);
    EmaOfConstant(Closes(bars), p, v);
  }

  datatype FibLevels = FibLevels(level0: real, level236: real, level382: real,
                                 level50: real, level618: real, level100: real)

  /** `calculate_fibonacci_retracement`: the 0/23.6/38.2/50/61.8/100 table from `high` down to `low`. */
  function FibonacciRetracement(high: real, low: real): (f: FibLevels)
    ensures f.level0 == high && f.level100 == low
    ensures f.level50 == (high + low) / 2.0
    ensures low <= high ==> low <= f.level618 <= f.level50 <= f.level382 <= f.level236 <= high
    ensures high <= low ==> high <= f.level236 <= f.level382 <= f.level50 <= f.level618 <= low
  {
    var diff := high - low;
    FibLevels(high, high - 0.236 * diff, high - 0.382 * diff, high - 0.500 * diff,
              high - 0.618 * diff, low)
  }

  /** The 50% level does not depend on which end anchors the table. */
  lemma FibFiftyIsSymmetric(a: real, b: real)
    ensures FibonacciRetracement(a, b).level50 == FibonacciRetracement(b, a).level50 == (a + b) / 2.0
  {
  }

  function MaxHigh(bars: seq<Bar>): (r: real)
    requires |bars| > 0
    ensures forall i :: 0 <= i < |bars| ==> bars[i].high <= r
    ensures exists i :: 0 <= i < |bars| && bars[i].high == r
  {
    if |bars| == 1 then bars[0].high
    else
      var m := MaxHigh(bars[..|bars| - 1]);
      assert forall i :: 0 <= i < |bars| - 1 ==> bars[..|bars| - 1][i] == bars[i];
      Max(m, Last(bars).high)
  }

  function MinLow(bars: seq<Bar>): (r: real)
    requires |bars| > 0
    ensures forall i :: 0 <= i < |bars| ==> r <= bars[i].low
    ensures exists i :: 0 <= i < |bars| && bars[i].low == r
  {
    if |bars| == 1 then bars[0].low
    else
      var m := MinLow(bars[..|bars| - 1]);
      assert forall i :: 0 <= i < |bars| - 1 ==> bars[..|bars| - 1][i] == bars[i];
      Min(m, Last(bars).low)
  }

  /** `find_swing_high_low`: highest high and lowest low of the last `lookback` bars. */
  function SwingHighLow(bars: seq<Bar>, lookback: nat): (r: (real, real))
    requires |bars| > 0 && lookback > 0
    ensures var w := Tail(bars, lookback);
      && (forall i :: 0 <= i < |w| ==> w[i].low >= r.1 && w[i].high <= r.0)
      && (exists i :: 0 <= i < |w| && w[i].high == r.0)
      && (exists i :: 0 <= i < |w| && w[i].low == r.1)
  {
    var w := Tail(bars, lookback);
    (MaxHigh(w), MinLow(w))
  }

  function BodyTop(b: Bar): real { Max(b.open, b.close) }
  function BodyBottom(b: Bar): real { Min(b.open, b.close) }
  function UpperWick(b: Bar): real { b.high - BodyTop(b) }
  function LowerWick(b: Bar): real { BodyBottom(b) - b.low }

  /** A bar whose high and low enclose its open and close. */
  predicate WellFormed(b: Bar) {
    b.low <= Min(b.open, b.close) && Max(b.open, b.close) <= b.high
  }

  datatype WickBias = WickBias(direction: Direction, size: real, level: real)

  /** `check_wick_direction`: the bias of the last closed D1 bar (the second to last one). */
  function CheckWickDirection(daily: seq<Bar>): (w: WickBias)
    ensures |daily| < 2 <==> w == WickBias(NoDirection, 0.0, 0.0)
    ensures |daily| >= 2 ==>
      var b := daily[|daily| - 2];
      && (w.direction == Up <==> UpperWick(b) > LowerWick(b))
      && (w.direction == Down <==> UpperWick(b) <= LowerWick(b))
      && w.size == Max(UpperWick(b), LowerWick(b))
      && (w.direction == Up ==> w.level - BodyTop(b) == b.high - w.level)
      && (w.direction == Down ==> w.level - b.low == BodyBottom(b) - w.level)
  {
    if |daily| < 2 then WickBias(NoDirection, 0.0, 0.0)
    else
      var b := daily[|daily| - 2];
      if UpperWick(b) > LowerWick(b) then WickBias(Up, UpperWick(b), (BodyTop(b) + b.high) / 2.0)
      else WickBias(Down, LowerWick(b), (b.low + BodyBottom(b)) / 2.0)
  }

  /** Only the second-to-last bar is read: series that agree on it have the same bias. */
  lemma WickReadsOnlyClosedBar(d1: seq<Bar>, d2: seq<Bar>)
    requires |d1| >= 2 && |d2| >= 2 && d1[|d1| - 2] == d2[|d2| - 2]
    ensures CheckWickDirection(d1) == CheckWickDirection(d2)
  {
  }

  /** On a well-formed bar the 50% level lies inside the dominant wick. */
  lemma WickLevelInsideWick(daily: seq<Bar>)
    requires |daily| >= 2 && WellFormed(daily[|daily| - 2])
    ensures var w := CheckWickDirection(daily); var b := daily[|daily| - 2];
      && w.size >= 0.0
      && (w.direction == Up ==> BodyTop(b) <= w.level <= b.high)
      && (w.direction == Down ==> b.low <= w.level <= BodyBottom(b))
      && b.low <= w.level <= b.high
  {
  }

  /** `is_wick_50_percent_filled`. */
  function IsWickHalfFilled(price: real, direction: Direction, level: real): (filled: bool)
    ensures direction == Up ==> (filled <==> price >= level)
    ensures direction == Down ==> (filled <==> price <= level)
    ensures direction == NoDirection ==> !filled
  {
    match direction
    case Up => price >= level
    case Down => price <= level
    case NoDirection => false
  }

  /** The worked example: open 100, high 110, close 102, low 99 gives UP at 106;
      107 fills it and 105 does not. */
  lemma WickExample(today: Bar)
    ensures var w := CheckWickDirection([Bar(0, 100.0, 110.0, 99.0, 102.0), today]);
      && w == WickBias(Up, 8.0, 106.0)
      && IsWickHalfFilled(107.0, w.direction, w.level)
      && !IsWickHalfFilled(105.0, w.direction, w.level)
  {
  }

  function Body(b: Bar): real { Abs(b.close - b.open) }

  /** Python's `max(bodies, key=...)`: the index of the first candle with the largest body. */
  function LargestBodyIndex(cs: seq<Bar>): (k: nat)
    requires |cs| > 0
    ensures k < |cs|
    ensures forall i :: 0 <= i < |cs| ==> Body(cs[i]) <= Body(cs[k])
    ensures forall i :: 0 <= i < k ==> Body(cs[i]) < Body(cs[k])
  {
    if |cs| == 1 then 0
    else
      var k := LargestBodyIndex(cs[..|cs| - 1]);
      assert forall i :: 0 <= i < |cs| - 1 ==> cs[..|cs| - 1][i] == cs[i];
      if Body(cs[|cs| - 1]) > Body(cs[k]) then |cs| - 1 else k
  }

  /** `df_h4.tail(4).head(3)`: the three H4 candles before the current one
      (with two or three candles, all of them). */
  function RecentH4(h4: seq<Bar>): seq<Bar> {
    Head(Tail(h4, 4), 3)
  }

  const SwingLookback: nat := 20

  /** `check_h4_50_percent_coverage`: does the largest-body recent H4 candle
      span the 50% Fibonacci level of the M15 swing? */
  function H4Coverage(h4: seq<Bar>, m15: seq<Bar>, bias: Action): (r: (bool, real))
    ensures |h4| < 2 || |m15| < 20 ==> r == (false, 0.0)
    ensures |h4| >= 2 && |m15| >= 20 ==>
      var (hi, lo) := SwingHighLow(m15, SwingLookback);
      var recent := RecentH4(h4);
      && |recent| > 0
      && r.1 == (hi + lo) / 2.0
      && (r.0 <==> recent[LargestBodyIndex(recent)].low <= r.1 <= recent[LargestBodyIndex(recent)].high)
  {
    if |h4| < 2 || |m15| < 20 then (false, 0.0)
    else
      var (hi, lo) := SwingHighLow(m15, SwingLookback);
      var fib := if bias == Sell then FibonacciRetracement(hi, lo) else FibonacciRetracement(lo, hi);
      var recent := RecentH4(h4);
      var c := recent[LargestBodyIndex(recent)];
      (c.low <= fib.level50 <= c.high, fib.level50)
  }

  /** The H4 test as the source runs it: collect the bodies, then take the first maximum. */
  method CheckH4Coverage(h4: seq<Bar>, m15: seq<Bar>, bias: Action) returns (covers: bool, fib50: real)
    ensures (covers, fib50) == H4Coverage(h4, m15, bias)
  {
    if |h4| < 2 || |m15| < 20 {
      return false, 0.0;
    }
    var (hi, lo) := SwingHighLow(m15, SwingLookback);
    var fib := if bias == Sell then FibonacciRetracement(hi, lo) else FibonacciRetracement(lo, hi);
    fib50 := fib.level50;
    var recent := RecentH4(h4);
    assert |recent| > 0;
    var bodies := CollectBodies(recent);
    var best := FirstLargest(recent, bodies);
    covers := recent[best].low <= fib50 <= recent[best].high;
  }

  /** `[abs(c['close'] - c['open']) for c in candles]`. */
  method CollectBodies(candles: seq<Bar>) returns (bodies: seq<real>)
    ensures |bodies| == |candles|
    ensures forall j :: 0 <= j < |candles| ==> bodies[j] == Body(candles[j])
  {
    bodies := [];
    for i := 0 to |candles|
      invariant |bodies| == i
      invariant forall j :: 0 <= j < i ==> bodies[j] == Body(candles[j])
    {
      bodies := bodies + [Body(candles[i])];
    }
  }

  /** The scan behind `max(bodies, key=...)`: only a strictly larger body replaces the best so far. */
  method FirstLargest(candles: seq<Bar>, bodies: seq<real>) returns (best: nat)
    requires |candles| > 0 && |bodies| == |candles|
    requires forall j :: 0 <= j < |bodies| ==> bodies[j] == Body(candles[j])
    ensures best == LargestBodyIndex(candles)
  {
    best := 0;
    for i := 1 to |bodies|
      invariant best < i
      invariant best == LargestBodyIndex(candles[..i])
    {
      assert candles[..i + 1][..i] == candles[..i];
      if bodies[i] > bodies[best] {
        best := i;
      }
    }
    assert candles[..|candles|] == candles;
  }

  const RetestTolerance: real := 0.0002

  /** A bar that opens on one side of the line and closes beyond it in the trade's direction. */
  predicate Breaks(b: Bar, line: real, side: Action) {
    if side == Buy then b.close > line && b.open <= line
    else b.close < line && b.open >= line
  }

  /** The final bar comes back to within the tolerance of the line (its low for BUY, its high for SELL). */
  predicate Retests(b: Bar, line: real, side: Action) {
    if side == Buy then Abs(b.low - line) <= RetestTolerance
    else Abs(b.high - line) <= RetestTolerance
  }

  /** `detect_purple_line_break_retest`: a break on some non-final bar of the last
      lookback+1 bars and a retest on the final one. */
  predicate BreakRetest(bars: seq<Bar>, line: seq<real>, side: Action, lookback: nat) {
    if |bars| < lookback + 1 || |line| < lookback + 1 then false
    else
      var rb, rl := Tail(bars, lookback + 1), Tail(line, lookback + 1);
      (exists i :: 0 <= i < lookback && Breaks(rb[i], rl[i], side)) && Retests(Last(rb), Last(rl), side)
  }

  /** The detector as the source runs it: a flag set by a loop, then the retest test. */
  method DetectBreakRetest(bars: seq<Bar>, line: seq<real>, side: Action, lookback: nat) returns (found: bool)
    ensures found == BreakRetest(bars, line, side, lookback)
  {
    if |bars| < lookback + 1 || |line| < lookback + 1 {
      return false;
    }
    var rb, rl := Tail(bars, lookback + 1), Tail(line, lookback + 1);
    var breakDetected := false;
    var retestDetected := false;
    for i := 0 to |rb| - 1
      invariant breakDetected <==> exists j :: 0 <= j < i && Breaks(rb[j], rl[j], side)
    {
      if Breaks(rb[i], rl[i], side) {
        breakDetected := true;
      }
    }
    if breakDetected {
      retestDetected := Retests(Last(rb), Last(rl), side);
    }
    found := breakDetected && retestDetected;
  }

  /** A detected pattern needs more than `lookback` bars and line values, at least one bar
      before the final one, and a final low (BUY) or high (SELL) within the tolerance of the line. */
  lemma BreakRetestWitness(bars: seq<Bar>, line: seq<real>, side: Action, lookback: nat)
    requires BreakRetest(bars, line, side, lookback)
    ensures |bars| >= lookback + 1 && |line| >= lookback + 1 && lookback > 0
    ensures side == Buy ==> Last(line) - RetestTolerance <= Last(bars).low <= Last(line) + RetestTolerance
    ensures side == Sell ==> Last(line) - RetestTolerance <= Last(bars).high <= Last(line) + RetestTolerance
  {
  }

  /** The indicator periods the cascades read from the strategy configuration. */
  datatype StrategyParams = StrategyParams(snakeFast: Period, snakeSlow: Period,
                                           shingleEma: Period, purpleLineEma: Period)

  /** The configured defaults: snake 8/21, shingle 50, purple line 34. */
  const DefaultParams := StrategyParams(8, 21, 50, 34)

  /** The H1 structure test: price beyond the shingle EMA, shingle coloured for the trade side. */
  predicate ShingleConfirms(h1: seq<Bar>, price: real, bias: Action, p: Period)
    requires |h1| > 0
  {
    var (ema, color) := Shingle(h1, p);
    if bias == Buy then price > ema && color == Green else price < ema && color == Red
  }

  /** The snake filter on one timeframe: the snake has the colour of the trade side. */
  predicate SnakeMatches(bars: seq<Bar>, bias: Action, cfg: StrategyParams)
    requires |bars| > 0
  {
    SnakeColor(bars, cfg.snakeFast, cfg.snakeSlow) == ConfirmingColor(bias)
  }
}
