/** The live signal engine: a daily bias from the D1 wick, refreshed at most
    hourly and cached in the engine, then the H4, H1, M30/M15 and M5/M1
    confirmations in that order, stopping at the first that fails. */
module Signals {
  import opened Market
  import opened Indicators

  /** The latest bid and ask of the symbol. */
  datatype Quote = Quote(bid: real, ask: real)

  /** What the terminal holds for one symbol when the engine asks: the bar
      history of every timeframe it has, oldest first, and the latest quote. */
  datatype Feed = Feed(bars: map<Timeframe, seq<Bar>>, tick: Option<Quote>)

  /** `get_bars`: the newest `count` bars, or nothing when the terminal has none. */
  function GetBars(feed: Feed, tf: Timeframe, count: nat): (r: Option<seq<Bar>>)
    ensures r.Some? <==> tf in feed.bars && |feed.bars[tf]| > 0 && count > 0
    ensures r.Some? ==> 0 < |r.value| <= count && |r.value| <= |feed.bars[tf]| && r.value == feed.bars[tf][|feed.bars[tf]| - |r.value|..]
  {
    if tf !in feed.bars || count == 0 then None
    else
      var rates := Tail(feed.bars[tf], count);
      if |rates| == 0 then None else Some(rates)
  }

  /** `analyze_daily_bias` without its side effects: the bias and 50% wick level
      of the last five D1 bars, or nothing when fewer than two are available. */
  function DailyAnalysis(feed: Feed): (r: Option<(Option<Action>, real)>)
    ensures r.None? <==> D1 !in feed.bars || |feed.bars[D1]| < 2
    ensures r.Some? ==>
      var w := CheckWickDirection(feed.bars[D1]);
      r.value == (BiasOf(w.direction), w.level) && r.value.0.Some?
  {
    var d1 := GetBars(feed, D1, 5);
    if d1.None? || |d1.value| < 2 then None
    else
      var full := feed.bars[D1];
      assert d1.value[|d1.value| - 2] == full[|full| - 2];
      WickReadsOnlyClosedBar(d1.value, full);
      var w := CheckWickDirection(d1.value);
      assert w.direction == Up || w.direction == Down;
      Some((BiasOf(w.direction), w.level))
  }

  /** `check_h4_50_percent_coverage` on the last 10 H4 and 50 M15 bars. */
  function CheckH4Confirmation(feed: Feed, bias: Action): (r: (bool, Option<real>))
    ensures GetBars(feed, H4, 10).None? || GetBars(feed, M15, 50).None? ==> r == (false, None)
    ensures r.0 ==> r.1.Some? && |feed.bars[H4]| >= 2 && |feed.bars[M15]| >= 20
    ensures r.0 <==>
      && GetBars(feed, H4, 10).Some? && GetBars(feed, M15, 50).Some?
      && H4Coverage(Tail(feed.bars[H4], 10), Tail(feed.bars[M15], 50), bias).0
    ensures r.1.Some? ==> r.1.value == H4Coverage(Tail(feed.bars[H4], 10), Tail(feed.bars[M15], 50), bias).1
  {
    match (GetBars(feed, H4, 10), GetBars(feed, M15, 50))
    case (Some(h4), Some(m15)) =>
      var (covers, fib50) := H4Coverage(h4, m15, bias);
      (covers, Some(fib50))
    case _ => (false, None)
  }

  /** `check_h1_structure`: the last H1 close beyond the shingle of the last 100 H1 bars. */
  function CheckH1Structure(feed: Feed, bias: Action, cfg: StrategyParams): (r: bool)
    ensures r ==> H1 in feed.bars && |feed.bars[H1]| > 0
    ensures r ==> var h1 := feed.bars[H1];
      ShingleConfirms(Tail(h1, 100), Last(h1).close, bias, cfg.shingleEma)
    ensures r <==> (GetBars(feed, H1, 100).Some? &&
      ShingleConfirms(Tail(feed.bars[H1], 100), Last(feed.bars[H1]).close, bias, cfg.shingleEma))
  {
    match GetBars(feed, H1, 100)
    case None => false
    case Some(h1) => ShingleConfirms(h1, Last(h1).close, bias, cfg.shingleEma)
  }

  /** `check_m30_m15_filter`: both the M30 and the M15 snake have the trade side's colour. */
  function CheckM30M15Filter(feed: Feed, bias: Action, cfg: StrategyParams): (r: bool)
    ensures r <==>
      && GetBars(feed, M30, 100).Some? && GetBars(feed, M15, 100).Some?
      && SnakeMatches(Tail(feed.bars[M30], 100), bias, cfg)
      && SnakeMatches(Tail(feed.bars[M15], 100), bias, cfg)
  {
    match (GetBars(feed, M30, 100), GetBars(feed, M15, 100))
    case (Some(m30), Some(m15)) => SnakeMatches(m30, bias, cfg) && SnakeMatches(m15, bias, cfg)
    case _ => false
  }

  /** The first entry condition: the M1 close beyond the fast snake EMA, snake coloured for the side. */
  predicate BeyondFastSnake(m1: seq<Bar>, bias: Action, cfg: StrategyParams)
    requires |m1| > 0
  {
    var fast := Last(Ema(Closes(m1), cfg.snakeFast));
    var color := SnakeColor(m1, cfg.snakeFast, cfg.snakeSlow);
    if bias == Buy then Last(m1).close > fast && color == Green
    else Last(m1).close < fast && color == Red
  }

  /** The third entry condition: the last M5 close within 0.001 of the M5 purple line. */
  predicate NearPurpleLine(m5: seq<Bar>, cfg: StrategyParams)
    requires |m5| > 0
  {
    Abs(Last(m5).close - Last(PurpleLine(m5, cfg.purpleLineEma))) < 0.001
  }

  /** `check_m5_m1_entry` on the last 20 M5 and 20 M1 bars: M1 beyond its fast
      snake, a purple-line break and retest on M1, and M5 within 0.001 of its
      purple line; the entry price is the last M1 close. */
  function CheckM5M1Entry(feed: Feed, bias: Action, cfg: StrategyParams): (r: (bool, Option<real>))
    ensures r.1.Some? <==> r.0
    ensures r.0 ==> M1 in feed.bars && |feed.bars[M1]| >= 6 && r.1 == Some(Last(feed.bars[M1]).close)
    ensures r.0 <==>
      && GetBars(feed, M5, 20).Some? && GetBars(feed, M1, 20).Some?
      && var m1 := Tail(feed.bars[M1], 20);
      && BeyondFastSnake(m1, bias, cfg) && BreakRetest(m1, PurpleLine(m1, cfg.purpleLineEma), bias, 5)
      && NearPurpleLine(Tail(feed.bars[M5], 20), cfg)
  {
    match (GetBars(feed, M5, 20), GetBars(feed, M1, 20))
    case (Some(m5), Some(m1)) =>
      var breakRetest := BreakRetest(m1, PurpleLine(m1, cfg.purpleLineEma), bias, 5);
      var entry := BeyondFastSnake(m1, bias, cfg) && breakRetest && NearPurpleLine(m5, cfg);
      if entry then
        BreakRetestWitness(m1, PurpleLine(m1, cfg.purpleLineEma), bias, 5);
        (true, Some(Last(m1).close))
      else (false, None)
    case _ => (false, None)
  }

  /** A signal's `confirmations` dictionary: one optional entry per key, absent
      until the step that records it has run. */
  datatype Confirmations = Confirmations(d1Bias: Option<Action>, dayStopped: Option<bool>,
                                         h4FiftyPercent: Option<bool>, h1Shingle: Option<bool>,
                                         m30M15Snake: Option<bool>, m5M1Entry: Option<bool>)

  const NoConfirmations := Confirmations(None, None, None, None, None, None)

  /** A key is recorded only after every earlier key was recorded and let the cascade go on. */
  predicate InStepOrder(c: Confirmations) {
    && (c.dayStopped.Some? ==> c.d1Bias.Some?)
    && (c.h4FiftyPercent.Some? ==> c.dayStopped == Some(false))
    && (c.h1Shingle.Some? ==> c.h4FiftyPercent == Some(true))
    && (c.m30M15Snake.Some? ==> c.h1Shingle == Some(true))
    && (c.m5M1Entry.Some? ==> c.m30M15Snake == Some(true))
  }

  /** Every key recorded and every step passed for side `b`. */
  function AllConfirmed(b: Action): Confirmations {
    Confirmations(Some(b), Some(false), Some(true), Some(true), Some(true), Some(true))
  }

  /** The dictionary `generate_signal` returns; times are in seconds. */
  datatype LiveSignal = LiveSignal(action: Option<Action>, symbol: string, price: Option<real>,
                                   confirmations: Confirmations, timestamp: int)

  /** The four fields of a `SignalEngine`. */
  datatype EngineState = EngineState(dailyBias: Option<Action>, wick50Level: Option<real>,
                                     dayStopped: bool, lastAnalysisTime: Option<int>)

  const InitialState := EngineState(None, None, false, None)

  /** A cached bias always comes with the wick level it was read with. */
  predicate Consistent(st: EngineState) {
    st.dailyBias.Some? ==> st.wick50Level.Some?
  }

  /** The bias is re-read when there is none, it was never read, or the last read is over an hour old. */
  predicate RefreshDue(st: EngineState, now: int) {
    st.dailyBias.None? || st.lastAnalysisTime.None? || now - st.lastAnalysisTime.value > 3600
  }

  /** `analyze_daily_bias`'s effect on the engine: a successful read replaces bias and
      level and clears the stop; a failed one changes nothing. */
  function Analyzed(st: EngineState, feed: Feed): (Option<Action>, EngineState) {
    match DailyAnalysis(feed)
    case None => (None, st)
    case Some((bias, level)) => (bias, st.(dailyBias := bias, wick50Level := Some(level), dayStopped := false))
  }

  /** Step 1: the bias the cascade goes on with, and the engine after the refresh rule. */
  function Refreshed(st: EngineState, feed: Feed, now: int): (Option<Action>, EngineState) {
    if RefreshDue(st, now) then
      var (bias, st1) := Analyzed(st, feed);
      (bias, st1.(lastAnalysisTime := Some(now)))
    else (st.dailyBias, st)
  }

  /** `check_daily_stop_condition` on the engine's own bias and level; a hit latches `dayStopped`. */
  function StopCheck(st: EngineState, price: real): (bool, EngineState) {
    if st.wick50Level.None? || st.dailyBias.None? then (false, st)
    else if IsWickHalfFilled(price, DirectionOf(st.dailyBias.value), st.wick50Level.value) then
      (true, st.(dayStopped := true))
    else (false, st)
  }

  /** The price the stop is checked against: the bid for SELL, the ask for BUY. */
  function SidePrice(q: Quote, bias: Action): real {
    if bias == Sell then q.bid else q.ask
  }

  /** The results of steps 3 to 6 for a side; only the prefix the cascade reaches is recorded. */
  datatype StepResults = StepResults(h4: bool, h1: bool, snake: bool, entry: bool, price: Option<real>)

  function RunSteps(feed: Feed, b: Action, cfg: StrategyParams): (r: StepResults)
    ensures r.entry ==> M1 in feed.bars && |feed.bars[M1]| > 0 && r.price == Some(Last(feed.bars[M1]).close)
    ensures r.h4 == CheckH4Confirmation(feed, b).0 && r.h1 == CheckH1Structure(feed, b, cfg)
    ensures r.snake == CheckM30M15Filter(feed, b, cfg) && (r.entry, r.price) == CheckM5M1Entry(feed, b, cfg)
  {
    var (entry, price) := CheckM5M1Entry(feed, b, cfg);
    StepResults(CheckH4Confirmation(feed, b).0, CheckH1Structure(feed, b, cfg),
                CheckM30M15Filter(feed, b, cfg), entry, price)
  }

  /** The confirmations recorded once the stop check has passed: each step is
      recorded, and the cascade returns at the first one that fails. */
  function Recorded(b: Action, r: StepResults): Confirmations {
    var c3 := NoConfirmations.(d1Bias := Some(b), dayStopped := Some(false), h4FiftyPercent := Some(r.h4));
    if !r.h4 then c3
    else if !r.h1 then c3.(h1Shingle := Some(false))
    else if !r.snake then c3.(h1Shingle := Some(true), m30M15Snake := Some(false))
    else c3.(h1Shingle := Some(true), m30M15Snake := Some(true), m5M1Entry := Some(r.entry))
  }

  predicate AllPassed(r: StepResults) {
    r.h4 && r.h1 && r.snake && r.entry
  }

  /** Steps 3 to 6 once the stop check has passed: a signal for `b` when every step passes. */
  function Confirmed(b: Action, r: StepResults, symbol: string, now: int): LiveSignal {
    if AllPassed(r) then LiveSignal(Some(b), symbol, r.price, Recorded(b, r), now)
    else LiveSignal(None, symbol, None, Recorded(b, r), now)
  }

  /** `generate_signal`: the signal it returns and the engine it leaves behind. */
  function Generate(st: EngineState, feed: Feed, symbol: string, now: int, cfg: StrategyParams): (r: (LiveSignal, EngineState))
    ensures r.0.symbol == symbol && r.0.timestamp == now
    ensures r.0.action.Some? <==>
      var (bias, st1) := Refreshed(st, feed, now);
      && bias.Some? && feed.tick.Some?
      && !StopCheck(st1, SidePrice(feed.tick.value, bias.value)).0
      && AllPassed(RunSteps(feed, bias.value, cfg))
    ensures r.0.action.Some? ==> r.0.action == Refreshed(st, feed, now).0
  {
    var (bias, st1) := Refreshed(st, feed, now);
    var empty := LiveSignal(None, symbol, None, NoConfirmations, now);
    if bias.None? then (empty, st1)
    else
      var b := bias.value;
      var c1 := NoConfirmations.(d1Bias := Some(b));
      if feed.tick.None? then (empty.(confirmations := c1), st1)
      else
        var (stop, st2) := StopCheck(st1, SidePrice(feed.tick.value, b));
        if stop then (empty.(confirmations := c1.(dayStopped := Some(true))), st2)
        else (Confirmed(b, RunSteps(feed, b, cfg), symbol, now), st2)
  }

  /** A signal carries an action exactly when the last step was recorded as passed;
      it then has every step recorded and passed for the daily bias it trades, and
      its price is the last M1 close. */
  lemma SignalIffAllConfirmed(st: EngineState, feed: Feed, symbol: string, now: int, cfg: StrategyParams)
    ensures var s := Generate(st, feed, symbol, now, cfg).0;
      && (s.action.Some? <==> s.confirmations.m5M1Entry == Some(true))
      && (s.action.Some? ==>
            && s.confirmations == AllConfirmed(s.action.value)
            && M1 in feed.bars && |feed.bars[M1]| > 0
            && s.price == Some(Last(feed.bars[M1]).close))
      && (s.action.None? ==> s.price.None?)
  {
  }

  /** The cascade stops at the first failing step: nothing is recorded after it. */
  lemma ConfirmationsInStepOrder(st: EngineState, feed: Feed, symbol: string, now: int, cfg: StrategyParams)
    ensures InStepOrder(Generate(st, feed, symbol, now, cfg).0.confirmations)
  {
    var (bias, st1) := Refreshed(st, feed, now);
    if bias.Some? && feed.tick.Some? && !StopCheck(st1, SidePrice(feed.tick.value, bias.value)).0 {
      var r := RunSteps(feed, bias.value, cfg);
      assert Generate(st, feed, symbol, now, cfg).0.confirmations == Recorded(bias.value, r);
      assert InStepOrder(Recorded(bias.value, r));
    }
  }

  /** The stop check never falls through for want of data: whenever a bias survives
      step 1, the engine holds that same bias and a wick level. */
  lemma StopCheckSeesCascadeBias(st: EngineState, feed: Feed, now: int)
    requires Consistent(st)
    ensures var (bias, st1) := Refreshed(st, feed, now);
      bias.Some? ==> st1.dailyBias == bias && st1.wick50Level.Some?
  {
  }

  /** Every call keeps a cached bias paired with its level. */
  lemma GenerateKeepsConsistent(st: EngineState, feed: Feed, symbol: string, now: int, cfg: StrategyParams)
    requires Consistent(st)
    ensures Consistent(Generate(st, feed, symbol, now, cfg).1)
  {
    var (bias, st1) := Refreshed(st, feed, now);
    if bias.Some? && feed.tick.Some? {
      var st2 := StopCheck(st1, SidePrice(feed.tick.value, bias.value)).1;
      assert Generate(st, feed, symbol, now, cfg).1 == st2;
    }
  }

  /** A due refresh stamps the analysis time even when the read fails; otherwise
      the cached bias, level and time are left alone. */
  lemma RefreshSchedule(st: EngineState, feed: Feed, symbol: string, now: int, cfg: StrategyParams)
    ensures var st' := Generate(st, feed, symbol, now, cfg).1;
      && (RefreshDue(st, now) ==> st'.lastAnalysisTime == Some(now))
      && (!RefreshDue(st, now) ==>
            st'.dailyBias == st.dailyBias && st'.wick50Level == st.wick50Level
            && st'.lastAnalysisTime == st.lastAnalysisTime)
  {
  }

  /** The daily stop is a latch: only a successful bias refresh clears it, and it
      is set exactly by the calls that report the stop. */
  lemma DayStopLatches(st: EngineState, feed: Feed, symbol: string, now: int, cfg: StrategyParams)
    ensures var (s, st') := Generate(st, feed, symbol, now, cfg);
      && (st.dayStopped && !(RefreshDue(st, now) && DailyAnalysis(feed).Some?) ==> st'.dayStopped)
      && (st'.dayStopped && !st.dayStopped ==> s.confirmations.dayStopped == Some(true))
      && (s.confirmations.dayStopped == Some(true) ==> st'.dayStopped && s.action.None?)
  {
    var (bias, st1) := Refreshed(st, feed, now);
    assert st.dayStopped && !(RefreshDue(st, now) && DailyAnalysis(feed).Some?) ==> st1.dayStopped;
    if bias.Some? && feed.tick.Some? {
      var (stop, st2) := StopCheck(st1, SidePrice(feed.tick.value, bias.value));
      assert st2.dayStopped == (st1.dayStopped || stop);
      if !stop {
        var r := RunSteps(feed, bias.value, cfg);
        assert Generate(st, feed, symbol, now, cfg) == (Confirmed(bias.value, r, symbol, now), st2);
        assert Recorded(bias.value, r).dayStopped == Some(false);
      }
    }
  }

  /** A failed refresh of an expired bias keeps the old bias and stamps the time, so
      for the following hour the cascade goes on with the bias that had expired. */
  lemma FailedRefreshKeepsExpiredBias(st: EngineState, feed: Feed, symbol: string, now: int, cfg: StrategyParams,
                                      later: Feed, now2: int)
    requires st.dailyBias.Some? && st.lastAnalysisTime.Some? && now - st.lastAnalysisTime.value > 3600
    requires DailyAnalysis(feed).None?
    requires now <= now2 <= now + 3600
    ensures var (s, st') := Generate(st, feed, symbol, now, cfg);
      && s.action.None? && s.confirmations == NoConfirmations
      && Refreshed(st', later, now2).0 == st.dailyBias
  {
  }

  /** The engine of `SignalEngine`; the terminal is the `feed` argument and the clock `now`. */
  class SignalEngine {
    var dailyBias: Option<Action>
    var wick50Level: Option<real>
    var dayStopped: bool
    var lastAnalysisTime: Option<int>

    function State(): EngineState
      reads this
    {
      EngineState(dailyBias, wick50Level, dayStopped, lastAnalysisTime)
    }

    ghost predicate Valid()
      reads this
    {
      Consistent(State())
    }

    constructor ()
      ensures State() == InitialState && Valid()
    {
      dailyBias := None;
      wick50Level := None;
      dayStopped := false;
      lastAnalysisTime := None;
    }

    method AnalyzeDailyBias(feed: Feed) returns (bias: Option<Action>, level: Option<real>)
      modifies this
      ensures match DailyAnalysis(feed)
        case None => bias.None? && level.None? && State() == old(State())
        case Some((b, l)) => bias == b && level == Some(l) && State() == Analyzed(old(State()), feed).1
    {
      var d1 := GetBars(feed, D1, 5);
      if d1.None? || |d1.value| < 2 {
        return None, None;
      }
      var w := CheckWickDirection(d1.value);
      bias := BiasOf(w.direction);
      level := Some(w.level);
      dailyBias := bias;
      wick50Level := level;
      dayStopped := false;
    }

    method CheckDailyStopCondition(price: real) returns (stop: bool)
      modifies this
      ensures (stop, State()) == StopCheck(old(State()), price)
    {
      if wick50Level.None? || dailyBias.None? {
        return false;
      }
      if IsWickHalfFilled(price, DirectionOf(dailyBias.value), wick50Level.value) {
        if !dayStopped {
          dayStopped := true;
        }
        return true;
      }
      return false;
    }

    /** Step 1 of `generate_signal`: re-read the bias when due and stamp the time. */
    method RefreshBias(feed: Feed, now: int) returns (bias: Option<Action>)
      modifies this
      ensures (bias, State()) == Refreshed(old(State()), feed, now)
    {
      if dailyBias.None? || lastAnalysisTime.None? || now - lastAnalysisTime.value > 3600 {
        var level;
        bias, level := AnalyzeDailyBias(feed);
        lastAnalysisTime := Some(now);
      } else {
        bias := dailyBias;
      }
    }

    method GenerateSignal(feed: Feed, symbol: string, now: int, cfg: StrategyParams) returns (s: LiveSignal)
      requires Valid()
      modifies this
      ensures (s, State()) == Generate(old(State()), feed, symbol, now, cfg)
      ensures Valid()
    {
      GenerateKeepsConsistent(State(), feed, symbol, now, cfg);
      s := LiveSignal(None, symbol, None, NoConfirmations, now);
      var bias := RefreshBias(feed, now);
      if bias.None? {
        return;
      }
      var b := bias.value;
      s := s.(confirmations := s.confirmations.(d1Bias := Some(b)));
      if feed.tick.None? {
        return;
      }
      var stop := CheckDailyStopCondition(SidePrice(feed.tick.value, b));
      if stop {
        s := s.(confirmations := s.confirmations.(dayStopped := Some(true)));
        return;
      }
      s := ConfirmEntry(feed, b, symbol, now, cfg);
    }
  }

  /** Steps 3 to 6 of `generate_signal`, each recorded before the next is tried. */
  method ConfirmEntry(feed: Feed, b: Action, symbol: string, now: int, cfg: StrategyParams) returns (s: LiveSignal)
    ensures s == Confirmed(b, RunSteps(feed, b, cfg), symbol, now)
  {
    s := LiveSignal(None, symbol, None, NoConfirmations.(d1Bias := Some(b), dayStopped := Some(false)), now);
    var h4 := CheckH4Confirmation(feed, b).0;
    s := s.(confirmations := s.confirmations.(h4FiftyPercent := Some(h4)));
    if !h4 {
      return;
    }
    var h1 := CheckH1Structure(feed, b, cfg);
    s := s.(confirmations := s.confirmations.(h1Shingle := Some(h1)));
    if !h1 {
      return;
    }
    var snake := CheckM30M15Filter(feed, b, cfg);
    s := s.(confirmations := s.confirmations.(m30M15Snake := Some(snake)));
    if !snake {
      return;
    }
    var (entry, price) := CheckM5M1Entry(feed, b, cfg);
    s := s.(confirmations := s.confirmations.(m5M1Entry := Some(entry)));
    if entry {
      s := s.(action := Some(b), price := price);
    }
  }
}
