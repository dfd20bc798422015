/** The relaxed cascade: the same lookups as the strict one, but only the
    M30-or-M15 snake can veto; everything else is recorded. */
module RelaxedBacktester {
  import opened Market
  import opened Indicators
  import opened HistoricalBacktester

  /** What each step found; 'NEUTRAL' is a missing D1 bias. */
  datatype Confirmations = Confirmations(d1Bias: Option<Action>, h4Fib: bool, h1Shingle: bool,
                                         m30Snake: bool, m15Snake: bool, m5M1Entry: bool)

  datatype RelaxedSignal = RelaxedSignal(action: Action, symbol: string, price: real, time: int,
                                         confirmations: Confirmations)

  /** Every frame the relaxed check cannot do without is present. */
  predicate DataPresent(f: Frames) {
    f.d1.Some? && |f.d1.value| >= 2 && f.h4.Some? && f.m15.Some? && f.h1.Some? && f.m30.Some? && f.m5.Some?
  }

  /** `RelaxedBacktester.check_signal_at_time` on the frames visible at `t`. */
  function RelaxedCascade(f: Frames, symbol: string, t: int, bot: BotType, cfg: StrategyParams): (r: Option<RelaxedSignal>)
    requires Fed(f)
    ensures r.Some? <==>
      (DataPresent(f) && (SnakeMatches(f.m30.value, BotAction(bot), cfg) || SnakeMatches(f.m15.value, BotAction(bot), cfg)))
    ensures r.Some? ==>
      var s, bias := r.value, BotAction(bot);
      var entry := EntrySeries(f.m1, f.m5.value);
      && s.action == bias && s.time == t && s.symbol == symbol
      && s.price == Last(entry).close
      && s.confirmations.d1Bias == BiasOf(CheckWickDirection(f.d1.value).direction)
      && s.confirmations.h4Fib == H4Coverage(f.h4.value, f.m15.value, bias).0
      && s.confirmations.h1Shingle == ShingleConfirms(f.h1.value, Last(f.d1.value).close, bias, cfg.shingleEma)
      && s.confirmations.m30Snake == SnakeMatches(f.m30.value, bias, cfg)
      && s.confirmations.m15Snake == SnakeMatches(f.m15.value, bias, cfg)
      && s.confirmations.m5M1Entry == BreakRetest(entry, PurpleLine(entry, cfg.purpleLineEma), bias, 5)
  {
    if f.d1.None? || |f.d1.value| < 2 then None
    else
      var w := CheckWickDirection(f.d1.value);
      var dailyBias := BiasOf(w.direction);
      var signalBias := BotAction(bot);
      var price := Last(f.d1.value).close;
      if f.h4.None? || f.m15.None? then None
      else
        var h4 := H4Coverage(f.h4.value, f.m15.value, signalBias).0;
        if f.h1.None? then None
        else
          var h1 := ShingleConfirms(f.h1.value, price, signalBias, cfg.shingleEma);
          if f.m30.None? then None
          else
            var m30Ok := SnakeMatches(f.m30.value, signalBias, cfg);
            var m15Ok := SnakeMatches(f.m15.value, signalBias, cfg);
            if !(m30Ok || m15Ok) then None
            else if f.m5.None? then None
            else
              var entry := EntrySeries(f.m1, f.m5.value);
              var breakRetest := BreakRetest(entry, PurpleLine(entry, cfg.purpleLineEma), signalBias, 5);
              Some(RelaxedSignal(signalBias, symbol, Last(entry).close, t,
                                 Confirmations(dailyBias, h4, h1, m30Ok, m15Ok, breakRetest)))
  }

  /** `check_signal_at_time` of the relaxed backtester: the relaxed cascade on the
      bars visible at `t`, which fires exactly when that data is there and the
      M30 or the M15 snake has the bot's colour. */
  function CheckSignalAtTime(cache: Cache, symbol: string, t: int, bot: BotType, cfg: StrategyParams): (r: Option<RelaxedSignal>)
    ensures var f := FramesAt(cache, symbol, t);
      r.Some? <==> DataPresent(f) && (SnakeMatches(f.m30.value, BotAction(bot), cfg) || SnakeMatches(f.m15.value, BotAction(bot), cfg))
    ensures r.Some? ==> r.value.action == BotAction(bot) && r.value.symbol == symbol && r.value.time == t
  {
    RelaxedCascade(FramesAt(cache, symbol, t), symbol, t, bot, cfg)
  }

  /** The relaxed rules only weaken the strict ones: a strict signal is also a
      relaxed one, with the same side and price and every step confirmed. */
  lemma StrictImpliesRelaxed(cache: Cache, symbol: string, t: int, bot: BotType, cfg: StrategyParams)
    requires HistoricalBacktester.CheckSignalAtTime(cache, symbol, t, bot, cfg).Some?
    ensures var strict := HistoricalBacktester.CheckSignalAtTime(cache, symbol, t, bot, cfg).value;
      var relaxed := CheckSignalAtTime(cache, symbol, t, bot, cfg);
      && relaxed.Some?
      && relaxed.value.action == strict.action && relaxed.value.price == strict.price
      && relaxed.value.confirmations == Confirmations(Some(strict.action), true, true, true, true, true)
  {
  }
}
