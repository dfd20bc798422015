/** The daily risk circuit breaker: the day's profit and loss derived from the
    account balance, a halt that latches until the next daily reset, the
    trading-session window (which may wrap past midnight), lot clamping and
    rounding, and the pre-trade validation. Dates are day numbers, times of day
    are integers in one unit (seconds); the account balance, the symbol
    information and the quote are inputs. */
module Risk {
  import opened Market
  import Signals

  /** The configuration values the risk manager reads. */
  datatype RiskConfig = RiskConfig(dailyStopUsd: real, dailyTargetUsd: real, lotSize: real, minLot: real,
                                   maxLot: real, maxSpreadPips: real, sessionStart: int, sessionEnd: int)

  /** Defaults: stop $40, target $100, 0.10 lots within [0.01, 1.0], spread 2 pips, session 19:00-06:00. */
  const DefaultRiskConfig := RiskConfig(40.0, 100.0, 0.10, 0.01, 1.0, 2.0, 19 * 3600, 6 * 3600)

  /** Why trading is halted; `NoHalt` is the empty reason. */
  datatype HaltReason = NoHalt | LossLimit(loss: real, limit: real) | ProfitTarget(profit: real, target: real)

  datatype RiskState = RiskState(startBalance: real, profit: real, loss: real, tradesToday: int,
                                 lastReset: Option<int>, halted: bool, haltReason: HaltReason)

  const InitialRisk := RiskState(0.0, 0.0, 0.0, 0, None, false, NoHalt)

  /** `initialize`: with a balance, it becomes the day's start and today is stamped. */
  function Initialized(st: RiskState, account: Option<real>, today: int): (r: RiskState)
    ensures account.None? ==> r == st
    ensures account.Some? ==> r == st.(startBalance := account.value, lastReset := Some(today))
  {
    if account.Some? then st.(startBalance := account.value, lastReset := Some(today)) else st
  }

  /** `reset_daily_counters`: a fresh day with no profit, loss, trades or halt. */
  function ResetDaily(st: RiskState, account: Option<real>, today: int): (r: RiskState)
    ensures r.profit == 0.0 && r.loss == 0.0 && r.tradesToday == 0
    ensures !r.halted && r.haltReason == NoHalt && r.lastReset == Some(today)
    ensures r.startBalance == if account.Some? then account.value else st.startBalance
  {
    RiskState(if account.Some? then account.value else st.startBalance, 0.0, 0.0, 0, Some(today), false, NoHalt)
  }

  /** `check_daily_reset`: resets on the first call and on every later date. */
  function DailyReset(st: RiskState, account: Option<real>, today: int): (r: RiskState)
    ensures st.lastReset.None? || today > st.lastReset.value ==> r == ResetDaily(st, account, today)
    ensures st.lastReset.Some? && today <= st.lastReset.value ==> r == st
  {
    if st.lastReset.None? || today > st.lastReset.value then ResetDaily(st, account, today) else st
  }

  /** `update_daily_pnl`: the balance's distance from the day's start goes to the
      profit when positive and to the loss otherwise; the other figure is kept. */
  function UpdatePnl(st: RiskState, account: Option<real>): (r: RiskState)
    ensures account.None? ==> r == st
    ensures account.Some? && account.value > st.startBalance ==>
      r == st.(profit := account.value - st.startBalance)
    ensures account.Some? && account.value <= st.startBalance ==>
      r == st.(loss := st.startBalance - account.value)
  {
    if account.None? then st
    else
      var pnl := account.value - st.startBalance;
      if pnl > 0.0 then st.(profit := pnl) else st.(loss := Abs(pnl))
  }

  /** The answer of `check_daily_limits`. */
  datatype LimitCheck = LimitsOk | Halted(reason: HaltReason)

  /** `check_daily_limits`: the P/L is refreshed, then the loss limit, the profit
      target and an earlier halt are tested in that order. */
  function CheckLimits(st: RiskState, account: Option<real>, cfg: RiskConfig): (r: (LimitCheck, RiskState))
    ensures var u := UpdatePnl(st, account);
      && (r.0 == LimitsOk <==> u.loss < cfg.dailyStopUsd && u.profit < cfg.dailyTargetUsd && !st.halted)
      && (u.loss >= cfg.dailyStopUsd ==> r.0 == Halted(LossLimit(u.loss, cfg.dailyStopUsd)))
      && (u.loss < cfg.dailyStopUsd && u.profit >= cfg.dailyTargetUsd ==> r.0 == Halted(ProfitTarget(u.profit, cfg.dailyTargetUsd)))
      && (u.loss < cfg.dailyStopUsd && u.profit < cfg.dailyTargetUsd && st.halted ==> r.0 == Halted(st.haltReason))
      && r.1.halted == (st.halted || r.0 != LimitsOk)
      && r.1.profit == u.profit && r.1.loss == u.loss && r.1.startBalance == st.startBalance
      && r.1.tradesToday == st.tradesToday && r.1.lastReset == st.lastReset
  {
    var u := UpdatePnl(st, account);
    if u.loss >= cfg.dailyStopUsd then
      var reason := LossLimit(u.loss, cfg.dailyStopUsd);
      (Halted(reason), u.(halted := true, haltReason := reason))
    else if u.profit >= cfg.dailyTargetUsd then
      var reason := ProfitTarget(u.profit, cfg.dailyTargetUsd);
      (Halted(reason), u.(halted := true, haltReason := reason))
    else if u.halted then (Halted(u.haltReason), u)
    else (LimitsOk, u)
  }

  /** `is_trading_session`: an inclusive window, wrapping past midnight when it starts after it ends. */
  function InSession(clock: int, start: int, end: int): (r: bool)
    ensures start > end ==> (r <==> !(end < clock < start))
    ensures start <= end ==> (r <==> start <= clock <= end)
  {
    if start > end then clock >= start || clock <= end else start <= clock && clock <= end
  }

  /** With the default 19:00-06:00 window: 23:00 and 06:00 trade, noon does not. */
  lemma DefaultSessionExamples()
    ensures InSession(23 * 3600, DefaultRiskConfig.sessionStart, DefaultRiskConfig.sessionEnd)
    ensures InSession(6 * 3600, DefaultRiskConfig.sessionStart, DefaultRiskConfig.sessionEnd)
    ensures InSession(19 * 3600, DefaultRiskConfig.sessionStart, DefaultRiskConfig.sessionEnd)
    ensures !InSession(12 * 3600, DefaultRiskConfig.sessionStart, DefaultRiskConfig.sessionEnd)
  {
  }

  /** What `symbols_info` keeps about a symbol and the risk manager reads. */
  datatype SymbolInfo = SymbolInfo(volumeMin: real, volumeMax: real, volumeStep: real, point: Option<real>)

  /** Python's `round` on a real: to the nearest integer, halves to the even neighbour. */
  function RoundHalfEven(x: real): (k: int)
    ensures -(1.0 / 2.0) <= (k as real) - x <= 1.0 / 2.0
    ensures (k as real) - x == 1.0 / 2.0 || x - (k as real) == 1.0 / 2.0 ==> k % 2 == 0
  {
    var f := x.Floor;
    var frac := x - f as real;
    if frac < 1.0 / 2.0 then f
    else if frac > 1.0 / 2.0 then f + 1
    else if f % 2 == 0 then f else f + 1
  }

  /** `max(min_lot, min(lot, max_lot))`. */
  function ClampLot(cfg: RiskConfig): (lot: real)
    ensures lot >= cfg.minLot
    ensures cfg.minLot <= cfg.maxLot ==> lot <= cfg.maxLot
    ensures cfg.minLot <= cfg.lotSize <= cfg.maxLot ==> lot == cfg.lotSize
  {
    Max(cfg.minLot, Min(cfg.lotSize, cfg.maxLot))
  }

  /** `x` is `k` volume steps. */
  predicate StepsOf(x: real, step: real, k: int) {
    x == (k as real) * step
  }

  /** `calculate_position_size`: the clamped lot, rounded to a multiple of the
      symbol's volume step when the symbol is known. */
  function PositionSize(cfg: RiskConfig, info: Option<SymbolInfo>): (lot: real)
    requires info.Some? ==> info.value.volumeStep > 0.0
    ensures info.None? ==> lot == ClampLot(cfg)
    ensures info.Some? ==> exists k: int :: StepsOf(lot, info.value.volumeStep, k)
    ensures info.Some? ==> Abs(lot - ClampLot(cfg)) <= info.value.volumeStep / 2.0
  {
    var lot := ClampLot(cfg);
    if info.None? then lot
    else
      var step := info.value.volumeStep;
      var k := RoundHalfEven(lot / step);
      StepRounding(lot, step, k);
      assert StepsOf((k as real) * step, step, k);
      (k as real) * step
  }

  /** Scaling the rounding error `|k - lot/step| <= 1/2` back by `step`. */
  lemma StepRounding(lot: real, step: real, k: int)
    requires step > 0.0
    requires -(1.0 / 2.0) <= (k as real) - lot / step <= 1.0 / 2.0
    ensures Abs((k as real) * step - lot) <= step / 2.0
  {
    var e := (k as real) - lot / step;
    assert (k as real) * step - lot == e * step;
    if e >= 0.0 {
      assert e * step <= (1.0 / 2.0) * step;
    } else {
      assert -(e * step) == (-e) * step <= (1.0 / 2.0) * step;
    }
  }

  /** Why a trade is refused. */
  datatype Rejection = LimitReached(reason: HaltReason) | OutsideSession | VolumeBelowMin(volume: real, min: real)
                     | VolumeAboveMax(volume: real, max: real) | SpreadTooHigh(spread: real, max: real)

  /** The outcome of `validate_trade`; `CheckFailed` is the attribute error raised
      when a quote exists for a symbol without symbol information. */
  datatype Verdict = Valid | Rejected(why: Rejection) | CheckFailed

  /** The spread ceiling: the pip allowance times the symbol's point (0.00001 by default). */
  function MaxSpread(cfg: RiskConfig, info: SymbolInfo): real {
    cfg.maxSpreadPips * (if info.point.Some? then info.point.value else 0.00001)
  }

  /** `validate_trade`: daily limits, then session, then volume bounds, then spread;
      the first failure is reported. The limit check updates the state. */
  function Validate(st: RiskState, account: Option<real>, clock: int, volume: real, info: Option<SymbolInfo>,
                    tick: Option<Signals.Quote>, cfg: RiskConfig): (r: (Verdict, RiskState))
    ensures r.1 == CheckLimits(st, account, cfg).1
    ensures CheckLimits(st, account, cfg).0.Halted? ==> r.0 == Rejected(LimitReached(CheckLimits(st, account, cfg).0.reason))
    ensures r.0 == Rejected(OutsideSession) <==>
      CheckLimits(st, account, cfg).0 == LimitsOk && !InSession(clock, cfg.sessionStart, cfg.sessionEnd)
    ensures r.0 == Valid <==>
      && CheckLimits(st, account, cfg).0 == LimitsOk
      && InSession(clock, cfg.sessionStart, cfg.sessionEnd)
      && (info.Some? ==> info.value.volumeMin <= volume <= info.value.volumeMax)
      && (tick.Some? ==> info.Some? && tick.value.ask - tick.value.bid <= MaxSpread(cfg, info.value))
    ensures r.0 == CheckFailed <==>
      && CheckLimits(st, account, cfg).0 == LimitsOk
      && InSession(clock, cfg.sessionStart, cfg.sessionEnd)
      && info.None? && tick.Some?
  {
    var (limits, st') := CheckLimits(st, account, cfg);
    if limits.Halted? then (Rejected(LimitReached(limits.reason)), st')
    else if !InSession(clock, cfg.sessionStart, cfg.sessionEnd) then (Rejected(OutsideSession), st')
    else if info.Some? && volume < info.value.volumeMin then (Rejected(VolumeBelowMin(volume, info.value.volumeMin)), st')
    else if info.Some? && volume > info.value.volumeMax then (Rejected(VolumeAboveMax(volume, info.value.volumeMax)), st')
    else if tick.None? then (Valid, st')
    else if info.None? then (CheckFailed, st')
    else
      var spread := tick.value.ask - tick.value.bid;
      if spread > MaxSpread(cfg, info.value) then (Rejected(SpreadTooHigh(spread, MaxSpread(cfg, info.value))), st')
      else (Valid, st')
  }

  /** `record_trade`: one more trade today, nothing else. */
  function TradeRecorded(st: RiskState): (r: RiskState)
    ensures r.tradesToday == st.tradesToday + 1
    ensures r.(tradesToday := st.tradesToday) == st
  {
    st.(tradesToday := st.tradesToday + 1)
  }

  /** The `get_risk_status` dictionary. */
  datatype RiskStatus = RiskStatus(startBalance: real, currentBalance: real, dailyPnl: real, dailyProfit: real,
                                   dailyLoss: real, tradesToday: int, halted: bool, haltReason: HaltReason,
                                   inSession: bool, dailyReturnPct: real, lossRemaining: real,
                                   profitRemaining: real, riskUtilizationPct: real)

  /** `get_risk_status` (through `get_daily_stats`): the P/L is refreshed first, and
      the remaining allowances are never negative. */
  function RiskStatusOf(st: RiskState, account: Option<real>, clock: int, cfg: RiskConfig): (r: (RiskStatus, RiskState))
    ensures r.1 == UpdatePnl(st, account)
    ensures r.0.lossRemaining >= 0.0 && r.0.profitRemaining >= 0.0
    ensures r.0.lossRemaining == Max(0.0, cfg.dailyStopUsd - r.1.loss)
    ensures r.0.profitRemaining == Max(0.0, cfg.dailyTargetUsd - r.1.profit)
    ensures r.0.dailyPnl == r.0.currentBalance - st.startBalance
    ensures r.0.currentBalance == if account.Some? then account.value else 0.0
    ensures st.startBalance <= 0.0 ==> r.0.dailyReturnPct == 0.0
    ensures cfg.dailyStopUsd <= 0.0 ==> r.0.riskUtilizationPct == 0.0
    ensures st.startBalance > 0.0 ==> r.0.dailyReturnPct * st.startBalance == r.0.dailyPnl * 100.0
    ensures cfg.dailyStopUsd > 0.0 ==> r.0.riskUtilizationPct * cfg.dailyStopUsd == r.1.loss * 100.0
    ensures r.0.halted == st.halted && r.0.inSession == InSession(clock, cfg.sessionStart, cfg.sessionEnd)
  {
    var u := UpdatePnl(st, account);
    var current := if account.Some? then account.value else 0.0;
    var pnl := current - u.startBalance;
    (RiskStatus(u.startBalance, current, pnl, u.profit, u.loss, u.tradesToday, u.halted, u.haltReason,
               InSession(clock, cfg.sessionStart, cfg.sessionEnd),
               if u.startBalance > 0.0 then pnl / u.startBalance * 100.0 else 0.0,
               Max(0.0, cfg.dailyStopUsd - u.loss), Max(0.0, cfg.dailyTargetUsd - u.profit),
               if cfg.dailyStopUsd > 0.0 then u.loss / cfg.dailyStopUsd * 100.0 else 0.0),
    u)
  }

  /** Straight after a reset to balance `b0`, the refreshed figures give the day's P/L exactly. */
  lemma ResetThenUpdate(st: RiskState, b0: real, today: int, b: real)
    ensures var u := UpdatePnl(ResetDaily(st, Some(b0), today), Some(b));
      u.profit - u.loss == b - b0 && u.profit >= 0.0 && u.loss >= 0.0
  {
  }

  /** The calls a bot makes on the risk manager. */
  datatype RiskCall = UpdateCall(account: Option<real>) | LimitsCall(account: Option<real>) | RecordCall
                    | ValidateCall(account: Option<real>, clock: int, volume: real, info: Option<SymbolInfo>, tick: Option<Signals.Quote>)
                    | StatusCall(account: Option<real>, clock: int)
                    | ResetCall(account: Option<real>, today: int) | DailyResetCall(account: Option<real>, today: int)

  function Apply(st: RiskState, c: RiskCall, cfg: RiskConfig): RiskState {
    match c
    case UpdateCall(a) => UpdatePnl(st, a)
    case LimitsCall(a) => CheckLimits(st, a, cfg).1
    case RecordCall => TradeRecorded(st)
    case ValidateCall(a, clock, v, info, tick) => Validate(st, a, clock, v, info, tick, cfg).1
    case StatusCall(a, clock) => RiskStatusOf(st, a, clock, cfg).1
    case ResetCall(a, today) => ResetDaily(st, a, today)
    case DailyResetCall(a, today) => DailyReset(st, a, today)
  }

  /** The state after a sequence of calls, in order. */
  function Run(st: RiskState, calls: seq<RiskCall>, cfg: RiskConfig): RiskState
    decreases |calls|
  {
    if calls == [] then st else Run(Apply(st, calls[0], cfg), calls[1..], cfg)
  }

  /** A call that can clear the halt: an explicit reset, or the daily check on a new date. */
  predicate MayReset(st: RiskState, c: RiskCall) {
    c.ResetCall? || (c.DailyResetCall? && (st.lastReset.None? || c.today > st.lastReset.value))
  }

  /** The halt latches: once halted, no call but a reset clears it. */
  lemma HaltLatches(st: RiskState, c: RiskCall, cfg: RiskConfig)
    requires st.halted && !MayReset(st, c)
    ensures Apply(st, c, cfg).halted
    ensures c.LimitsCall? ==> CheckLimits(st, c.account, cfg).0.Halted?
    ensures c.ValidateCall? ==> Validate(st, c.account, c.clock, c.volume, c.info, c.tick, cfg).0 != Valid
  {
  }

  /** Over any run of calls without a reset, a halted manager stays halted and
      never again lets a trade through. */
  lemma {:induction false} HaltLatchesOverRun(st: RiskState, calls: seq<RiskCall>, cfg: RiskConfig)
    requires st.halted
    requires forall k :: 0 <= k < |calls| ==> !calls[k].ResetCall? && !calls[k].DailyResetCall?
    ensures Run(st, calls, cfg).halted
    decreases |calls|
  {
    if calls != [] {
      HaltLatches(st, calls[0], cfg);
      HaltLatchesOverRun(Apply(st, calls[0], cfg), calls[1..], cfg);
    }
  }

  /** The day's profit and loss figures are never negative. */
  predicate FiguresNonNegative(st: RiskState) {
    st.profit >= 0.0 && st.loss >= 0.0
  }

  lemma {:induction false} FiguresStayNonNegative(st: RiskState, calls: seq<RiskCall>, cfg: RiskConfig)
    requires FiguresNonNegative(st)
    ensures FiguresNonNegative(Run(st, calls, cfg))
    decreases |calls|
  {
    if calls != [] {
      var next := Apply(st, calls[0], cfg);
      assert FiguresNonNegative(next);
      FiguresStayNonNegative(next, calls[1..], cfg);
    }
  }

  /** The global risk manager shared by the bots. */
  class RiskManager {
    const cfg: RiskConfig
    var dailyStartBalance: real
    var dailyProfit: real
    var dailyLoss: real
    var tradesToday: int
    var lastResetDate: Option<int>
    var tradingHalted: bool
    var haltReason: HaltReason

    function State(): RiskState
      reads this
    {
      RiskState(dailyStartBalance, dailyProfit, dailyLoss, tradesToday, lastResetDate, tradingHalted, haltReason)
    }

    constructor (cfg: RiskConfig)
      ensures this.cfg == cfg && State() == InitialRisk
    {
      this.cfg := cfg;
      dailyStartBalance := 0.0;
      dailyProfit := 0.0;
      dailyLoss := 0.0;
      tradesToday := 0;
      lastResetDate := None;
      tradingHalted := false;
      haltReason := NoHalt;
    }

    method Initialize(account: Option<real>, today: int)
      modifies this
      ensures State() == Initialized(old(State()), account, today)
    {
      if account.Some? {
        dailyStartBalance := account.value;
        lastResetDate := Some(today);
      }
    }

    method CheckDailyReset(account: Option<real>, today: int)
      modifies this
      ensures State() == DailyReset(old(State()), account, today)
    {
      if lastResetDate.None? || today > lastResetDate.value {
        ResetDailyCounters(account, today);
      }
    }

    method ResetDailyCounters(account: Option<real>, today: int)
      modifies this
      ensures State() == ResetDaily(old(State()), account, today)
    {
      if account.Some? {
        dailyStartBalance := account.value;
      }
      dailyProfit := 0.0;
      dailyLoss := 0.0;
      tradesToday := 0;
      tradingHalted := false;
      haltReason := NoHalt;
      lastResetDate := Some(today);
    }

    method UpdateDailyPnl(account: Option<real>)
      modifies this
      ensures State() == UpdatePnl(old(State()), account)
    {
      if account.None? {
        return;
      }
      var dailyPnl := account.value - dailyStartBalance;
      if dailyPnl > 0.0 {
        dailyProfit := dailyPnl;
      } else {
        dailyLoss := Abs(dailyPnl);
      }
    }

    method CheckDailyLimits(account: Option<real>) returns (r: LimitCheck)
      modifies this
      ensures (r, State()) == CheckLimits(old(State()), account, cfg)
    {
      UpdateDailyPnl(account);
      if dailyLoss >= cfg.dailyStopUsd {
        tradingHalted := true;
        haltReason := LossLimit(dailyLoss, cfg.dailyStopUsd);
        return Halted(haltReason);
      }
      if dailyProfit >= cfg.dailyTargetUsd {
        tradingHalted := true;
        haltReason := ProfitTarget(dailyProfit, cfg.dailyTargetUsd);
        return Halted(haltReason);
      }
      if tradingHalted {
        return Halted(haltReason);
      }
      return LimitsOk;
    }

    method ValidateTrade(account: Option<real>, clock: int, volume: real, info: Option<SymbolInfo>,
                         tick: Option<Signals.Quote>) returns (v: Verdict)
      modifies this
      ensures (v, State()) == Validate(old(State()), account, clock, volume, info, tick, cfg)
    {
      var limits := CheckDailyLimits(account);
      if limits.Halted? {
        return Rejected(LimitReached(limits.reason));
      }
      if !InSession(clock, cfg.sessionStart, cfg.sessionEnd) {
        return Rejected(OutsideSession);
      }
      if info.Some? {
        if volume < info.value.volumeMin {
          return Rejected(VolumeBelowMin(volume, info.value.volumeMin));
        }
        if volume > info.value.volumeMax {
          return Rejected(VolumeAboveMax(volume, info.value.volumeMax));
        }
      }
      if tick.Some? {
        if info.None? {
          return CheckFailed;
        }
        var spread := tick.value.ask - tick.value.bid;
        var maxSpread := MaxSpread(cfg, info.value);
        if spread > maxSpread {
          return Rejected(SpreadTooHigh(spread, maxSpread));
        }
      }
      return Valid;
    }

    method RecordTrade(profit: real)
      modifies this
      ensures State() == TradeRecorded(old(State()))
    {
      tradesToday := tradesToday + 1;
    }

    method GetRiskStatus(account: Option<real>, clock: int) returns (status: RiskStatus)
      modifies this
      ensures (status, State()) == RiskStatusOf(old(State()), account, clock, cfg)
    {
      UpdateDailyPnl(account);
      var current := if account.Some? then account.value else 0.0;
      var pnl := current - dailyStartBalance;
      status := RiskStatus(dailyStartBalance, current, pnl, dailyProfit, dailyLoss, tradesToday, tradingHalted, haltReason,
                           InSession(clock, cfg.sessionStart, cfg.sessionEnd),
                           if dailyStartBalance > 0.0 then pnl / dailyStartBalance * 100.0 else 0.0,
                           Max(0.0, cfg.dailyStopUsd - dailyLoss), Max(0.0, cfg.dailyTargetUsd - dailyProfit),
                           if cfg.dailyStopUsd > 0.0 then dailyLoss / cfg.dailyStopUsd * 100.0 else 0.0);
    }
  }
}
