/** The historical backtester's pure side: the causal bar store, the strict
    six-step cascade evaluated on it, the exit-price simulation and the
    performance statistics. Times are integer minutes. */
module HistoricalBacktester {
  import opened Market
  import opened Indicators

  /** The preloaded history: symbol -> timeframe -> bars in time order. */
  type Cache = map<string, map<Timeframe, seq<Bar>>>

  /** `df[df.index <= current_time]`: the bars at or before `t`, in their order. */
  function UpTo(s: seq<Bar>, t: int): (r: seq<Bar>)
    ensures |r| <= |s|
    ensures forall i :: 0 <= i < |r| ==> r[i].time <= t
  {
    if s == [] then []
    else
      var init := UpTo(s[..|s| - 1], t);
      if Last(s).time <= t then init + [Last(s)] else init
  }

  /** The filter keeps exactly the bars of `s` stamped at or before `t`. */
  lemma {:induction false} UpToMembers(s: seq<Bar>, t: int)
    ensures forall i :: 0 <= i < |UpTo(s, t)| ==> UpTo(s, t)[i] in s
    ensures forall i :: 0 <= i < |s| && s[i].time <= t ==> s[i] in UpTo(s, t)
  {
    if s != [] {
      var init := s[..|s| - 1];
      UpToMembers(init, t);
      assert forall i :: 0 <= i < |init| ==> init[i] == s[i];
      assert UpTo(s, t) == UpTo(init, t) + (if Last(s).time <= t then [Last(s)] else []);
    }
  }

  /** On a time-ordered series the filter keeps exactly a prefix: the bars up to
      `t`, and every bar after it lies in the future. */
  lemma {:induction false} UpToIsPrefix(s: seq<Bar>, t: int) returns (k: nat)
    requires Increasing(s)
    ensures k <= |s| && UpTo(s, t) == s[..k]
    ensures forall i :: 0 <= i < k ==> s[i].time <= t
    ensures forall i :: k <= i < |s| ==> s[i].time > t
  {
    if s == [] {
      return 0;
    }
    var n := |s| - 1;
    var init := s[..n];
    assert Increasing(init);
    var k' := UpToIsPrefix(init, t);
    if s[n].time <= t {
      k := |s|;
      assert UpTo(s, t) == init + [s[n]];
    } else {
      k := k';
      assert s[..k] == init[..k];
    }
  }

  /** No look-ahead: bars stamped after `t` never change what is visible at `t`. */
  lemma {:induction false} UpToIgnoresFuture(s: seq<Bar>, future: seq<Bar>, t: int)
    requires forall i :: 0 <= i < |future| ==> future[i].time > t
    ensures UpTo(s + future, t) == UpTo(s, t)
  {
    if future != [] {
      var init := future[..|future| - 1];
      UpToIgnoresFuture(s, init, t);
      var sf := s + future;
      assert sf[..|sf| - 1] == s + init;
      assert Last(sf).time > t;
      assert UpTo(sf, t) == UpTo(s + init, t);
    } else {
      assert s + future == s;
    }
  }

  /** `get_bars_up_to`: the last `count` bars at or before `t`, or None for an
      unknown symbol or timeframe or when no bar is that old. */
  function BarsUpTo(cache: Cache, symbol: string, tf: Timeframe, t: int, count: nat): (r: Option<seq<Bar>>)
    ensures r.None? <==> symbol !in cache || tf !in cache[symbol] || UpTo(cache[symbol][tf], t) == []
    ensures r.Some? ==>
      var visible := UpTo(cache[symbol][tf], t);
      && |r.value| == (if |visible| < count then |visible| else count)
      && r.value == visible[|visible| - |r.value|..]
      && forall i :: 0 <= i < |r.value| ==> r.value[i].time <= t
  {
    if symbol !in cache then None
    else if tf !in cache[symbol] then None
    else
      var visible := UpTo(cache[symbol][tf], t);
      if |visible| == 0 then None
      else
        TailKeepsTimes(visible, count, t);
        Some(Tail(visible, count))
  }

  lemma TailKeepsTimes(s: seq<Bar>, n: nat, t: int)
    requires forall i :: 0 <= i < |s| ==> s[i].time <= t
    ensures forall i :: 0 <= i < |Tail(s, n)| ==> Tail(s, n)[i].time <= t
  {
    var r := Tail(s, n);
    forall i | 0 <= i < |r| ensures r[i].time <= t {
      assert r[i] == s[|s| - |r| + i];
    }
  }

  /** Every bar a lookup returns is a bar of the series, and the newest one is
      the newest bar visible at `t`. */
  lemma BarsUpToNoLookAhead(cache: Cache, symbol: string, tf: Timeframe, t: int, count: nat)
    requires BarsUpTo(cache, symbol, tf, t, count).Some?
    ensures var r, visible := BarsUpTo(cache, symbol, tf, t, count).value, UpTo(cache[symbol][tf], t);
      && (forall i :: 0 <= i < |r| ==> r[i] in cache[symbol][tf])
      && (|r| > 0 ==> Last(r) == Last(visible))
  {
    var r, visible := BarsUpTo(cache, symbol, tf, t, count).value, UpTo(cache[symbol][tf], t);
    UpToMembers(cache[symbol][tf], t);
    forall i | 0 <= i < |r| ensures r[i] in cache[symbol][tf] {
      assert r[i] == visible[|visible| - |r| + i];
    }
    if |r| > 0 {
      assert Last(r) == visible[|visible| - 1];
    }
  }

  /** No look-ahead: bars later than `t` arriving in the series do not change
      what a lookup at `t` returns. */
  lemma BarsUpToIgnoresFuture(cache: Cache, symbol: string, tf: Timeframe, t: int, count: nat, future: seq<Bar>)
    requires symbol in cache && tf in cache[symbol]
    requires forall i :: 0 <= i < |future| ==> future[i].time > t
    ensures BarsUpTo(cache[symbol := cache[symbol][tf := cache[symbol][tf] + future]], symbol, tf, t, count)
            == BarsUpTo(cache, symbol, tf, t, count)
  {
    UpToIgnoresFuture(cache[symbol][tf], future, t);
  }

  /** On a time-ordered series the lookup returns the latest `count` bars at or
      before `t`, in order, and nothing later than `t` exists before them. */
  lemma BarsUpToAreLatest(cache: Cache, symbol: string, tf: Timeframe, t: int, count: nat) returns (k: nat)
    requires symbol in cache && tf in cache[symbol] && Increasing(cache[symbol][tf])
    requires BarsUpTo(cache, symbol, tf, t, count).Some?
    ensures var s, r := cache[symbol][tf], BarsUpTo(cache, symbol, tf, t, count).value;
      && |r| <= k <= |s|
      && r == s[k - |r|..k]
      && (forall i :: k <= i < |s| ==> s[i].time > t)
  {
    var s := cache[symbol][tf];
    k := UpToIsPrefix(s, t);
    assert s[..k][k - |BarsUpTo(cache, symbol, tf, t, count).value|..] == s[k - |BarsUpTo(cache, symbol, tf, t, count).value|..k];
  }

  /** The frames one signal check reads, with the counts the cascade asks for. */
  datatype Frames = Frames(d1: Option<seq<Bar>>, h4: Option<seq<Bar>>, m15: Option<seq<Bar>>,
                           h1: Option<seq<Bar>>, m30: Option<seq<Bar>>, m5: Option<seq<Bar>>,
                           m1: Option<seq<Bar>>)

  predicate NonEmpty(o: Option<seq<Bar>>) {
    o.Some? ==> |o.value| > 0
  }

  /** Every frame that is present holds at least one bar. */
  predicate Fed(f: Frames) {
    NonEmpty(f.d1) && NonEmpty(f.h4) && NonEmpty(f.m15) && NonEmpty(f.h1)
    && NonEmpty(f.m30) && NonEmpty(f.m5) && NonEmpty(f.m1)
  }

  /** The lookups of `check_signal_at_time`: D1 5, H4 10, M15 50, H1 100, M30 100, M5 20, M1 20. */
  function FramesAt(cache: Cache, symbol: string, t: int): (f: Frames)
    ensures Fed(f)
  {
    Frames(BarsUpTo(cache, symbol, D1, t, 5), BarsUpTo(cache, symbol, H4, t, 10),
           BarsUpTo(cache, symbol, M15, t, 50), BarsUpTo(cache, symbol, H1, t, 100),
           BarsUpTo(cache, symbol, M30, t, 100), BarsUpTo(cache, symbol, M5, t, 20),
           BarsUpTo(cache, symbol, M1, t, 20))
  }

  /** Step 6 reads M1 when it holds bars, otherwise M5. */
  function EntrySeries(m1: Option<seq<Bar>>, m5: seq<Bar>): seq<Bar> {
    if m1.Some? && |m1.value| > 0 then m1.value else m5
  }

  datatype Signal = Signal(action: Action, symbol: string, price: real, time: int)

  /** Every step of the strict cascade holds, stated as one conjunction. */
  ghost predicate StrictAccepts(f: Frames, bot: BotType, cfg: StrategyParams)
    requires Fed(f)
  {
    var bias := BotAction(bot);
    && f.d1.Some? && |f.d1.value| >= 2
    && CheckWickDirection(f.d1.value).direction == DirectionOf(bias)
    && !IsWickHalfFilled(Last(f.d1.value).close, DirectionOf(bias), CheckWickDirection(f.d1.value).level)
    && f.h4.Some? && f.m15.Some? && H4Coverage(f.h4.value, f.m15.value, bias).0
    && f.h1.Some? && ShingleConfirms(f.h1.value, Last(f.d1.value).close, bias, cfg.shingleEma)
    && f.m30.Some? && SnakeMatches(f.m30.value, bias, cfg) && SnakeMatches(f.m15.value, bias, cfg)
    && f.m5.Some?
    && var entry := EntrySeries(f.m1, f.m5.value);
       BreakRetest(entry, PurpleLine(entry, cfg.purpleLineEma), bias, 5)
  }

  /** `check_signal_at_time` on the frames visible at `t`: the early-return cascade. */
  function StrictCascade(f: Frames, symbol: string, t: int, bot: BotType, cfg: StrategyParams): (r: Option<Signal>)
    requires Fed(f)
    ensures r.Some? <==> StrictAccepts(f, bot, cfg)
    ensures r.Some? ==> f.m5.Some? && r.value == Signal(BotAction(bot), symbol, Last(EntrySeries(f.m1, f.m5.value)).close, t)
  {
    if f.d1.None? || |f.d1.value| < 2 then None
    else
      var w := CheckWickDirection(f.d1.value);
      match BiasOf(w.direction)
      case None => None
      case Some(bias) =>
        if bias != BotAction(bot) then None
        else
          var price := Last(f.d1.value).close;
          if IsWickHalfFilled(price, w.direction, w.level) then None
          else if f.h4.None? || f.m15.None? then None
          else if !H4Coverage(f.h4.value, f.m15.value, bias).0 then None
          else if f.h1.None? then None
          else if !ShingleConfirms(f.h1.value, price, bias, cfg.shingleEma) then None
          else if f.m30.None? then None
          else if !(SnakeMatches(f.m30.value, bias, cfg) && SnakeMatches(f.m15.value, bias, cfg)) then None
          else if f.m5.None? then None
          else
            var entry := EntrySeries(f.m1, f.m5.value);
            if !BreakRetest(entry, PurpleLine(entry, cfg.purpleLineEma), bias, 5) then None
            else Some(Signal(bias, symbol, Last(entry).close, t))
  }

  /** `check_signal_at_time`: the strict cascade on the bars visible at `t`; a
      signal trades the bot's side on this symbol at this time. */
  function CheckSignalAtTime(cache: Cache, symbol: string, t: int, bot: BotType, cfg: StrategyParams): (r: Option<Signal>)
    ensures r.Some? <==> StrictAccepts(FramesAt(cache, symbol, t), bot, cfg)
    ensures r.Some? ==> r.value.action == BotAction(bot) && r.value.symbol == symbol && r.value.time == t
  {
    StrictCascade(FramesAt(cache, symbol, t), symbol, t, bot, cfg)
  }

  /** A strict signal trades the bot's side, which is also the D1 bias, and the
      bias was read from D1 bars that were all visible at the check time. */
  lemma StrictSignalFollowsBias(cache: Cache, symbol: string, t: int, bot: BotType, cfg: StrategyParams)
    requires CheckSignalAtTime(cache, symbol, t, bot, cfg).Some?
    ensures var s := CheckSignalAtTime(cache, symbol, t, bot, cfg).value;
      var d1 := BarsUpTo(cache, symbol, D1, t, 5);
      && s.action == BotAction(bot) && s.time == t
      && (bot == Pain ==> s.action == Sell) && (bot == Gain ==> s.action == Buy)
      && d1.Some? && BiasOf(CheckWickDirection(d1.value).direction) == Some(s.action)
      && forall i :: 0 <= i < |d1.value| ==> d1.value[i].time <= t
  {
    var f := FramesAt(cache, symbol, t);
    assert StrictAccepts(f, bot, cfg);
    assert f.d1 == BarsUpTo(cache, symbol, D1, t, 5);
  }

  /** The entry series is M1 when it has bars; when no M1 history exists the
      signal price is the latest visible M5 close. */
  lemma StrictPriceWithoutM1(cache: Cache, symbol: string, t: int, bot: BotType, cfg: StrategyParams)
    requires symbol in cache && M1 !in cache[symbol]
    requires CheckSignalAtTime(cache, symbol, t, bot, cfg).Some?
    ensures M5 in cache[symbol] && UpTo(cache[symbol][M5], t) != []
    ensures CheckSignalAtTime(cache, symbol, t, bot, cfg).value.price == Last(UpTo(cache[symbol][M5], t)).close
  {
  }

  datatype Position = Position(symbol: string, action: Action, entryPrice: real, entryTime: int,
                               volume: real, holdMinutes: int)

  /** Why a position closed: 'Hold period complete' (the historical replay),
      'Hold time reached' (the simplified backtester) or 'Backtest end'. */
  datatype ExitReason = HoldPeriodComplete | HoldTimeReached | BacktestEnd

  datatype Trade = Trade(position: Position, exitTime: int, exitReason: ExitReason, pnl: real, balanceAfter: real)

  /** The exit price of `simulate_trade_exit`: the latest M1 close at or before
      `t`, else the latest M5 close, else none. */
  function ExitPrice(cache: Cache, symbol: string, t: int): (r: Option<real>)
    ensures r.None? <==> BarsUpTo(cache, symbol, M1, t, 1).None? && BarsUpTo(cache, symbol, M5, t, 1).None?
    ensures BarsUpTo(cache, symbol, M1, t, 1).Some? ==> r == Some(Last(UpTo(cache[symbol][M1], t)).close)
    ensures BarsUpTo(cache, symbol, M1, t, 1).None? && BarsUpTo(cache, symbol, M5, t, 1).Some? ==>
      r == Some(Last(UpTo(cache[symbol][M5], t)).close)
  {
    var m1 := BarsUpTo(cache, symbol, M1, t, 1);
    if m1.Some? && |m1.value| > 0 then Some(Last(m1.value).close)
    else
      var m5 := BarsUpTo(cache, symbol, M5, t, 1);
      if m5.None? || |m5.value| == 0 then None else Some(Last(m5.value).close)
  }

  /** The price move in the trade's favour. */
  function PipMovement(action: Action, entry: real, exit: real): real {
    if action == Sell then entry - exit else exit - entry
  }

  /** The P/L of a price move: pips times volume times 10000. */
  function MovePnl(action: Action, entry: real, exit: real, volume: real): (pnl: real)
    ensures volume > 0.0 ==>
      && (pnl > 0.0 <==> (action == Sell && exit < entry) || (action == Buy && exit > entry))
      && Abs(pnl) == Abs(exit - entry) * volume * 10000.0
  {
    var m := PipMovement(action, entry, exit);
    ScaledSign(m, volume);
    m * volume * 10000.0
  }

  lemma ScaledSign(m: real, v: real)
    ensures v > 0.0 ==> (m * v * 10000.0 > 0.0 <==> m > 0.0) && Abs(m * v * 10000.0) == Abs(m) * v * 10000.0
  {
    if v > 0.0 {
      if m > 0.0 {
        assert m * v > 0.0;
      } else if m < 0.0 {
        assert (-m) * v > 0.0;
      }
    }
  }

  /** `simulate_trade_exit`: the P/L of the move to the exit price, or 0 without one. */
  function SimulateTradeExit(cache: Cache, symbol: string, p: Position, t: int): (pnl: real)
    ensures ExitPrice(cache, symbol, t).None? ==> pnl == 0.0
    ensures ExitPrice(cache, symbol, t).Some? && p.volume > 0.0 ==>
      var x := ExitPrice(cache, symbol, t).value;
      pnl > 0.0 <==> (p.action == Sell && x < p.entryPrice) || (p.action == Buy && x > p.entryPrice)
    ensures ExitPrice(cache, symbol, t).Some? ==>
      pnl == MovePnl(p.action, p.entryPrice, ExitPrice(cache, symbol, t).value, p.volume)
  {
    match ExitPrice(cache, symbol, t)
    case None => 0.0
    case Some(x) => MovePnl(p.action, p.entryPrice, x, p.volume)
  }

  /** BUY and SELL at the same entry and exit mirror each other's P/L. */
  lemma ExitPnlMirrors(cache: Cache, symbol: string, p: Position, t: int)
    ensures SimulateTradeExit(cache, symbol, p.(action := Buy), t) == -SimulateTradeExit(cache, symbol, p.(action := Sell), t)
  {
  }

  /** `sum(t['pnl'] for t in trades)`. */
  function TotalPnl(trades: seq<Trade>): real {
    if trades == [] then 0.0 else TotalPnl(trades[..|trades| - 1]) + Last(trades).pnl
  }

  lemma TotalPnlAppend(trades: seq<Trade>, x: Trade)
    ensures TotalPnl(trades + [x]) == TotalPnl(trades) + x.pnl
  {
    assert (trades + [x])[..|trades|] == trades;
  }

  /** `[t for t in trades if t['pnl'] > 0]`. */
  function Winning(trades: seq<Trade>): (r: seq<Trade>)
    ensures |r| <= |trades|
    ensures forall i :: 0 <= i < |r| ==> r[i].pnl > 0.0
  {
    if trades == [] then []
    else
      var init := trades[..|trades| - 1];
      Winning(init) + (if Last(trades).pnl > 0.0 then [Last(trades)] else [])
  }

  /** `[t for t in trades if t['pnl'] <= 0]`. */
  function Losing(trades: seq<Trade>): (r: seq<Trade>)
    ensures |r| <= |trades|
    ensures forall i :: 0 <= i < |r| ==> r[i].pnl <= 0.0
  {
    if trades == [] then []
    else
      var init := trades[..|trades| - 1];
      Losing(init) + (if Last(trades).pnl <= 0.0 then [Last(trades)] else [])
  }

  /** Every trade is a win or a loss, never both: the counts split exactly. */
  lemma {:induction false} WinLossCount(trades: seq<Trade>)
    ensures |Winning(trades)| + |Losing(trades)| == |trades|
  {
    if trades != [] {
      var init := trades[..|trades| - 1];
      WinLossCount(init);
    }
  }

  /** ... and each trade lands on exactly one of the two lists as often as it occurs. */
  lemma {:induction false} WinLossPartition(trades: seq<Trade>)
    ensures multiset(Winning(trades)) + multiset(Losing(trades)) == multiset(trades)
  {
    if trades != [] {
      var init := trades[..|trades| - 1];
      WinLossPartition(init);
      assert trades == init + [Last(trades)];
    }
  }

  /** The winners are exactly the trades with a positive P/L, the losers exactly the others. */
  lemma {:induction false} WinLossMembers(trades: seq<Trade>)
    ensures forall x :: x in Winning(trades) <==> x in trades && x.pnl > 0.0
    ensures forall x :: x in Losing(trades) <==> x in trades && x.pnl <= 0.0
  {
    if trades != [] {
      var init := trades[..|trades| - 1];
      WinLossMembers(init);
      assert trades == init + [Last(trades)];
    }
  }

  /** Both filters keep the list order: filtering a concatenation concatenates the filtered parts. */
  lemma {:induction false} WinLossConcat(a: seq<Trade>, b: seq<Trade>)
    ensures Winning(a + b) == Winning(a) + Winning(b)
    ensures Losing(a + b) == Losing(a) + Losing(b)
  {
    if b == [] {
      assert a + b == a;
    } else {
      var init, x := b[..|b| - 1], Last(b);
      WinLossConcat(a, init);
      assert (a + b)[..|a + b| - 1] == a + init;
      assert Last(a + b) == x;
      var win := if x.pnl > 0.0 then [x] else [];
      var loss := if x.pnl <= 0.0 then [x] else [];
      assert Winning(a + b) == Winning(a + init) + win;
      assert Losing(a + b) == Losing(a + init) + loss;
      ConcatAssoc(Winning(a), Winning(init), win);
      ConcatAssoc(Losing(a), Losing(init), loss);
    }
  }

  /** ... and so does the total P/L. */
  lemma {:induction false} WinLossPnl(trades: seq<Trade>)
    ensures TotalPnl(Winning(trades)) + TotalPnl(Losing(trades)) == TotalPnl(trades)
  {
    if trades != [] {
      var init := trades[..|trades| - 1];
      var x := Last(trades);
      WinLossPnl(init);
      assert trades == init + [x];
      TotalPnlAppend(init, x);
      if x.pnl > 0.0 {
        assert Winning(trades) == Winning(init) + [x];
        assert Losing(trades) == Losing(init);
        TotalPnlAppend(Winning(init), x);
      } else {
        assert Losing(trades) == Losing(init) + [x];
        assert Winning(trades) == Winning(init);
        TotalPnlAppend(Losing(init), x);
      }
    }
  }

  /** `x / n` for a non-empty list, 0 for an empty one. */
  function Mean(total: real, n: nat): (m: real)
    ensures n > 0 ==> m * (n as real) == total
    ensures total >= 0.0 ==> m >= 0.0
    ensures total <= 0.0 ==> m <= 0.0
  {
    if n == 0 then 0.0 else total / (n as real)
  }

  /** `x / base * 100`, the percentage of a non-zero base. */
  function Percent(x: real, base: real): (p: real)
    requires base != 0.0
    ensures p * base == x * 100.0
    ensures 0.0 <= x <= base ==> 0.0 <= p <= 100.0
  {
    x / base * 100.0
  }

  /** The win rate: the winning trades as a percentage of all trades. */
  function WinRate(trades: seq<Trade>): (r: real)
    requires trades != []
    ensures r * (|trades| as real) == (|Winning(trades)| as real) * 100.0
    ensures 0.0 <= r <= 100.0
  {
    WinLossCount(trades);
    Percent(|Winning(trades)| as real, |trades| as real)
  }

  datatype Stats = Stats(totalTrades: nat, winningTrades: nat, losingTrades: nat, winRate: real,
                         finalBalance: real, totalPnl: real, returnPct: real, avgWin: real, avgLoss: real)

  /** `_calculate_statistics`; the return divides by the initial balance. */
  function CalculateStatistics(trades: seq<Trade>, balance: real, initialBalance: real): (s: Stats)
    requires trades == [] || initialBalance != 0.0
    ensures trades == [] ==> s == Stats(0, 0, 0, 0.0, balance, 0.0, 0.0, 0.0, 0.0)
    ensures s.totalTrades == |trades| && s.winningTrades + s.losingTrades == s.totalTrades
    ensures s.winningTrades == |Winning(trades)| && s.losingTrades == |Losing(trades)|
    ensures s.totalPnl == TotalPnl(trades) && s.finalBalance == balance
    ensures 0.0 <= s.winRate <= 100.0
    ensures s.avgWin >= 0.0 && s.avgLoss <= 0.0
    ensures trades != [] ==>
      && s.winRate == WinRate(trades) && s.returnPct == Percent(s.totalPnl, initialBalance)
      && s.avgWin == Mean(TotalPnl(Winning(trades)), |Winning(trades)|)
      && s.avgLoss == Mean(TotalPnl(Losing(trades)), |Losing(trades)|)
  {
    if trades == [] then Stats(0, 0, 0, 0.0, balance, 0.0, 0.0, 0.0, 0.0)
    else
      WinLossCount(trades);
      var winning, losing := Winning(trades), Losing(trades);
      var total := TotalPnl(trades);
      SumOfWins(winning);
      SumOfLosses(losing);
      var returnPct := Percent(total, initialBalance);
      var winRate := WinRate(trades);
      var avgWin, avgLoss := Mean(TotalPnl(winning), |winning|), Mean(TotalPnl(losing), |losing|);
      assert avgWin >= 0.0 && avgLoss <= 0.0;
      Stats(|trades|, |winning|, |losing|, winRate, balance, total, returnPct, avgWin, avgLoss)
  }

  /** The return is the total P/L as a percentage of the initial balance. */
  lemma ReturnIsPercentOfInitial(trades: seq<Trade>, balance: real, initialBalance: real)
    requires trades != [] && initialBalance != 0.0
    ensures var s := CalculateStatistics(trades, balance, initialBalance);
      s.returnPct * initialBalance == s.totalPnl * 100.0
  {
    var s := CalculateStatistics(trades, balance, initialBalance);
    assert s.returnPct == Percent(TotalPnl(trades), initialBalance);
  }

  lemma {:induction false} SumOfWins(ws: seq<Trade>)
    requires forall i :: 0 <= i < |ws| ==> ws[i].pnl > 0.0
    ensures TotalPnl(ws) >= 0.0
  {
    if ws != [] {
      var init := ws[..|ws| - 1];
      assert ws == init + [Last(ws)];
      SumOfWins(init);
      TotalPnlAppend(init, Last(ws));
    }
  }

  lemma {:induction false} SumOfLosses(ls: seq<Trade>)
    requires forall i :: 0 <= i < |ls| ==> ls[i].pnl <= 0.0
    ensures TotalPnl(ls) <= 0.0
  {
    if ls != [] {
      var init := ls[..|ls| - 1];
      assert ls == init + [Last(ls)];
      SumOfLosses(init);
      TotalPnlAppend(init, Last(ls));
    }
  }
}
