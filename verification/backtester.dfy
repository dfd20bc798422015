/** The simplified backtester: every 30 minutes of every day it asks for a
    signal, keeps it only when it is the bot's side, opens a position on it,
    closes the positions whose hold time has passed with a drawn P/L, and
    records the balance once a day; at the end it closes what is left and
    reports the statistics, the maximum drawdown and the Sharpe ratio.
    Times are integer minutes; day `d` starts at minute `d * 1440`. */
module SimpleBacktest {
  import opened Market
  import opened HistoricalBacktester
  import opened HistoricalReplay
  import Signals

  /** `_get_historical_signal`'s filter: the action survives only when it is the bot's side. */
  function FilterSignal(signal: Signals.LiveSignal, bot: BotType): (r: Signals.LiveSignal)
    ensures r.action.Some? <==> signal.action == Some(BotAction(bot))
    ensures r.action.Some? ==> r == signal
    ensures r.(action := signal.action) == signal
  {
    if signal.action == Some(BotAction(bot)) then signal else signal.(action := None)
  }

  /** `list.remove`: drops the first element equal to `x`, which must be present
      (Python raises `ValueError` otherwise). */
  function RemoveFirst(ps: seq<Position>, x: Position): (r: seq<Position>)
    requires x in ps
    ensures |r| == |ps| - 1
  {
    if ps[0] == x then ps[1..] else [ps[0]] + RemoveFirst(ps[1..], x)
  }

  /** Exactly one copy of `x` goes; every other element keeps its count. */
  lemma {:induction false} RemoveFirstMultiset(ps: seq<Position>, x: Position)
    requires x in ps
    ensures multiset(RemoveFirst(ps, x)) == multiset(ps) - multiset{x}
  {
    assert ps == [ps[0]] + ps[1..];
    if ps[0] != x {
      RemoveFirstMultiset(ps[1..], x);
    }
  }

  /** Which element goes: the first equal one, everything around it kept in order. */
  lemma {:induction false} RemoveFirstAfter(a: seq<Position>, x: Position, b: seq<Position>)
    requires forall i :: 0 <= i < |a| ==> a[i] != x
    ensures RemoveFirst(a + [x] + b, x) == a + b
  {
    if a != [] {
      assert (a + [x] + b)[1..] == a[1..] + [x] + b;
      RemoveFirstAfter(a[1..], x, b);
      assert [a[0]] + (a[1..] + b) == a + b;
    } else {
      assert (a + [x] + b)[1..] == b;
    }
  }

  /** One point of the equity curve. */
  datatype EquityPoint = EquityPoint(day: int, balance: real, equity: real)

  /** The running peak of the balance, starting from the initial balance. */
  function PeakAfter(initial: real, bs: seq<real>): real {
    if bs == [] then initial else Max(PeakAfter(initial, bs[..|bs| - 1]), Last(bs))
  }

  /** The largest drawdown seen while walking the curve. */
  function MaxDrawdownOf(initial: real, bs: seq<real>): real {
    if bs == [] then 0.0 else Max(MaxDrawdownOf(initial, bs[..|bs| - 1]), PeakAfter(initial, bs) - Last(bs))
  }

  /** The peak is the initial balance or some point, and no point is above it. */
  lemma {:induction false} PeakIsHighest(initial: real, bs: seq<real>)
    ensures PeakAfter(initial, bs) >= initial
    ensures forall i :: 0 <= i < |bs| ==> bs[i] <= PeakAfter(initial, bs)
    ensures PeakAfter(initial, bs) == initial || exists i :: 0 <= i < |bs| && bs[i] == PeakAfter(initial, bs)
  {
    if bs != [] {
      var init := bs[..|bs| - 1];
      PeakIsHighest(initial, init);
      assert forall i :: 0 <= i < |init| ==> init[i] == bs[i];
      if PeakAfter(initial, bs) != initial && PeakAfter(initial, bs) != Last(bs) {
        var i :| 0 <= i < |init| && init[i] == PeakAfter(initial, init);
        assert bs[i] == PeakAfter(initial, bs);
      }
    }
  }

  /** The fall from the high at `j` (the initial balance when `j` is -1) to the point at `i`. */
  function DropOf(initial: real, bs: seq<real>, j: int, i: int): real
    requires -1 <= j <= i < |bs| && 0 <= i
  {
    (if j < 0 then initial else bs[j]) - bs[i]
  }

  /** The drop from an earlier high (the initial balance or an earlier point) to a later point. */
  predicate DropWithin(initial: real, bs: seq<real>, j: int, i: int, d: real)
    requires -1 <= j <= i < |bs| && 0 <= i
  {
    DropOf(initial, bs, j, i) <= d
  }

  /** The maximum drawdown is at least zero and at least every drop from an earlier high to a later point. */
  lemma {:induction false} DrawdownCoversEveryDrop(initial: real, bs: seq<real>)
    ensures MaxDrawdownOf(initial, bs) >= 0.0
    ensures forall j, i :: -1 <= j <= i < |bs| && 0 <= i ==> DropWithin(initial, bs, j, i, MaxDrawdownOf(initial, bs))
  {
    if bs != [] {
      var init := bs[..|bs| - 1];
      var n := |bs| - 1;
      DrawdownCoversEveryDrop(initial, init);
      PeakIsHighest(initial, bs);
      forall j, i | -1 <= j <= i < |bs| && 0 <= i
        ensures DropWithin(initial, bs, j, i, MaxDrawdownOf(initial, bs))
      {
        if i < n {
          assert DropWithin(initial, init, j, i, MaxDrawdownOf(initial, init));
          assert init[i] == bs[i];
          assert j >= 0 ==> init[j] == bs[j];
        }
      }
    }
  }

  /** ... and it is attained: it is zero, or some drop from an earlier high equals it. */
  lemma {:induction false} DrawdownIsAttained(initial: real, bs: seq<real>)
    ensures MaxDrawdownOf(initial, bs) == 0.0 ||
      exists j, i :: -1 <= j <= i < |bs| && 0 <= i && DropOf(initial, bs, j, i) == MaxDrawdownOf(initial, bs)
  {
    if bs != [] {
      var init := bs[..|bs| - 1];
      var n := |bs| - 1;
      DrawdownIsAttained(initial, init);
      var m := MaxDrawdownOf(initial, bs);
      if m != 0.0 {
        if m == MaxDrawdownOf(initial, init) {
          var j, i :| -1 <= j <= i < |init| && 0 <= i && DropOf(initial, init, j, i) == m;
          assert init[i] == bs[i];
          assert j >= 0 ==> init[j] == bs[j];
          assert DropOf(initial, bs, j, i) == m;
        } else {
          assert m == PeakAfter(initial, bs) - bs[n];
          PeakIsHighest(initial, bs);
          if PeakAfter(initial, bs) == initial {
            assert DropOf(initial, bs, -1, n) == m;
          } else {
            var j :| 0 <= j < |bs| && bs[j] == PeakAfter(initial, bs);
            assert DropOf(initial, bs, j, n) == m;
          }
        }
      }
    }
  }

  function Balances(curve: seq<EquityPoint>): (bs: seq<real>)
    ensures |bs| == |curve| && forall i :: 0 <= i < |curve| ==> bs[i] == curve[i].balance
  {
    if curve == [] then [] else Balances(curve[..|curve| - 1]) + [Last(curve).balance]
  }

  /** The drawdown loop of `_calculate_statistics`: the peak starts at the initial
      balance and only rises; the drawdown is the largest fall below it. */
  method MaxDrawdown(initial: real, curve: seq<EquityPoint>) returns (maxDd: real, peak: real)
    ensures peak == PeakAfter(initial, Balances(curve))
    ensures maxDd == MaxDrawdownOf(initial, Balances(curve))
  {
    peak := initial;
    maxDd := 0.0;
    var i := 0;
    while i < |curve|
      invariant 0 <= i <= |curve|
      invariant peak == PeakAfter(initial, Balances(curve[..i]))
      invariant maxDd == MaxDrawdownOf(initial, Balances(curve[..i]))
    {
      assert curve[..i + 1][..i] == curve[..i];
      if curve[i].balance > peak {
        peak := curve[i].balance;
      }
      var drawdown := peak - curve[i].balance;
      if drawdown > maxDd {
        maxDd := drawdown;
      }
      i := i + 1;
    }
    assert curve[..i] == curve;
  }

  /** The drawdown as a percentage of the final peak, 0 when the peak is not positive. */
  function DrawdownPct(maxDd: real, peak: real): (p: real)
    ensures peak <= 0.0 ==> p == 0.0
    ensures peak > 0.0 ==> p * peak == maxDd * 100.0
    ensures peak > 0.0 && 0.0 <= maxDd ==> p >= 0.0
  {
    if peak > 0.0 then Percent(maxDd, peak) else 0.0
  }

  /** The product of two reals, with the sign facts the variance needs. */
  function Product(a: real, b: real): (r: real)
    ensures a > 0.0 && b > 0.0 ==> r > 0.0
    ensures a < 0.0 && b < 0.0 ==> r > 0.0
    ensures a == 0.0 || b == 0.0 ==> r == 0.0
  {
    a * b
  }

  /** `x ** 2`: never negative, and zero only at zero. */
  function Square(x: real): (r: real)
    ensures r >= 0.0
    ensures r == 0.0 <==> x == 0.0
  {
    Product(x, x)
  }

  /** `x / n` for a positive count: it keeps the sign of `x`. */
  function Divide(x: real, n: real): (r: real)
    requires n > 0.0
    ensures r * n == x
    ensures r > 0.0 <==> x > 0.0
  {
    x / n
  }

  /** The sum of squared deviations of the P/Ls from `m`. */
  function SquaredDeviation(ts: seq<Trade>, m: real): (s: real)
    ensures s >= 0.0
  {
    if ts == [] then 0.0 else SquaredDeviation(ts[..|ts| - 1], m) + Square(Last(ts).pnl - m)
  }

  /** The squared deviations vanish exactly when every P/L equals `m`. */
  lemma {:induction false} SquaredDeviationZero(ts: seq<Trade>, m: real)
    ensures SquaredDeviation(ts, m) == 0.0 <==> forall i :: 0 <= i < |ts| ==> ts[i].pnl == m
  {
    if ts != [] {
      var init := ts[..|ts| - 1];
      SquaredDeviationZero(init, m);
      assert forall i :: 0 <= i < |init| ==> init[i] == ts[i];
    }
  }

  lemma {:induction false} FlatTotal(ts: seq<Trade>, v: real)
    requires forall i :: 0 <= i < |ts| ==> ts[i].pnl == v
    ensures TotalPnl(ts) == (|ts| as real) * v
  {
    if ts != [] {
      var init := ts[..|ts| - 1];
      assert forall i :: 0 <= i < |init| ==> init[i] == ts[i];
      FlatTotal(init, v);
    }
  }

  /** All trades have the same P/L. */
  predicate FlatPnl(ts: seq<Trade>) {
    forall i, j :: 0 <= i < |ts| && 0 <= j < |ts| ==> ts[i].pnl == ts[j].pnl
  }

  /** The deviation from the mean vanishes exactly when every P/L is the same. */
  lemma FlatIffNoDeviation(ts: seq<Trade>)
    requires |ts| > 0
    ensures SquaredDeviation(ts, Mean(TotalPnl(ts), |ts|)) == 0.0 <==> FlatPnl(ts)
  {
    var avg := Mean(TotalPnl(ts), |ts|);
    SquaredDeviationZero(ts, avg);
    if FlatPnl(ts) {
      FlatTotal(ts, ts[0].pnl);
    }
  }

  /** The Sharpe ratio's ingredients: the mean P/L and the variance whose square
      root divides it; `NoSharpe` stands for the ratio 0. */
  datatype Sharpe = NoSharpe | SharpeRatio(mean: real, variance: real)

  /** The ratio exists exactly when there are two trades or more and not all P/Ls are equal. */
  function SharpeOf(ts: seq<Trade>): (s: Sharpe)
    ensures s.SharpeRatio? ==> s.variance > 0.0 && s.mean * (|ts| as real) == TotalPnl(ts)
    ensures s == NoSharpe <==> |ts| <= 1 || FlatPnl(ts)
  {
    if |ts| <= 1 then NoSharpe
    else
      var avg := Mean(TotalPnl(ts), |ts|);
      var variance := Divide(SquaredDeviation(ts, avg), |ts| as real);
      FlatIffNoDeviation(ts);
      if variance > 0.0 then SharpeRatio(avg, variance) else NoSharpe
  }

  /** How a run ends: no broker connection, a division by the zero initial balance,
      or the statistics. */
  datatype RunResult = ConnectFailed | DivisionByZero | Results(stats: BacktestStats)

  /** The statistics `_calculate_statistics` reports on top of the shared ones. */
  datatype BacktestStats = BacktestStats(base: Stats, maxDrawdown: real, maxDrawdownPct: real, sharpe: Sharpe)

  /** Whether trades `from..` record `ps` in order, closed at `t` for `reason`, the
      k-th trade of the run drawing P/L `draw(k)`. */
  ghost predicate ClosedWith(ts: seq<Trade>, from: nat, ps: seq<Position>, t: int, reason: ExitReason, draw: nat -> real) {
    && |ts| == from + |ps|
    && forall k :: from <= k < |ts| ==>
         ts[k].position == ps[k - from] && ts[k].exitTime == t && ts[k].exitReason == reason && ts[k].pnl == draw(k)
  }

  /** Every trade from index `from` on is a hold-time exit, the k-th trade of the
      run drawing P/L `draw(k)`. */
  ghost predicate DrawnHoldExits(ts: seq<Trade>, from: nat, draw: nat -> real) {
    forall k :: from <= k < |ts| ==> ts[k].exitReason == HoldTimeReached && ts[k].pnl == draw(k)
  }

  /** Hold-time exits appended after hold-time exits keep the record of hold-time exits. */
  lemma DrawnHoldExitsGrow(ts: seq<Trade>, ts': seq<Trade>, from: nat, ps: seq<Position>, t: int, draw: nat -> real)
    requires DrawnHoldExits(ts, from, draw) && ts <= ts'
    requires ClosedWith(ts', |ts|, ps, t, HoldTimeReached, draw)
    ensures DrawnHoldExits(ts', from, draw)
  {
    assert forall k :: from <= k < |ts| ==> ts'[k] == ts[k];
  }

  /** One step of the exit pass over `snapshot`: how the held and the closed lists
      change at `i`, removing a due position by value as `list.remove` does. */
  lemma ExitStep(snapshot: seq<Position>, i: nat, t: int)
    requires i < |snapshot|
    ensures DueOnes(snapshot[..i + 1], t) == DueOnes(snapshot[..i], t) + (if Due(snapshot[i], t) then [snapshot[i]] else [])
    ensures Due(snapshot[i], t) ==>
      RemoveFirst(Undue(snapshot[..i], t) + snapshot[i..], snapshot[i]) == Undue(snapshot[..i + 1], t) + snapshot[i + 1..]
    ensures !Due(snapshot[i], t) ==> Undue(snapshot[..i], t) + snapshot[i..] == Undue(snapshot[..i + 1], t) + snapshot[i + 1..]
  {
    assert snapshot[..i + 1][..i] == snapshot[..i];
    assert snapshot[i..] == [snapshot[i]] + snapshot[i + 1..];
    var kept := Undue(snapshot[..i], t);
    if Due(snapshot[i], t) {
      RemoveFirstAfter(kept, snapshot[i], snapshot[i + 1..]);
      assert kept + snapshot[i..] == kept + [snapshot[i]] + snapshot[i + 1..];
    }
  }

  lemma ClosedWithAppend(ts: seq<Trade>, from: nat, ps: seq<Position>, t: int, reason: ExitReason,
                         draw: nat -> real, x: Trade)
    requires ClosedWith(ts, from, ps, t, reason, draw)
    requires x.exitTime == t && x.exitReason == reason && x.pnl == draw(|ts|)
    ensures ClosedWith(ts + [x], from, ps + [x.position], t, reason, draw)
  {
  }

  /** Trades closed as `ps` record exactly the positions `ps`. */
  lemma ClosedWithEntries(ts: seq<Trade>, from: nat, ps: seq<Position>, t: int, reason: ExitReason, draw: nat -> real)
    requires ClosedWith(ts, from, ps, t, reason, draw)
    ensures Entries(ts[from..]) == ps
  {
    EntriesAt(ts[from..]);
  }

  class Backtester {
    const symbol: string
    const bot: BotType
    const lotSize: real
    const holdMinutes: nat
    const startDay: int
    const endDay: int
    const initialBalance: real
    /** The signal engine's answer at each check time. */
    const signalAt: int -> Signals.LiveSignal
    /** The simulated P/L of the k-th closed trade. */
    const draw: nat -> real
    var balance: real
    var positions: seq<Position>
    var trades: seq<Trade>
    var equityCurve: seq<EquityPoint>

    /** The books balance: the balance is the initial one plus every realised P/L. */
    ghost predicate Valid()
      reads this
    {
      balance == initialBalance + TotalPnl(trades) && Booked(trades, initialBalance)
    }

    constructor (symbol: string, bot: BotType, lotSize: real, holdMinutes: nat, startDay: int, endDay: int,
                 initialBalance: real, signalAt: int -> Signals.LiveSignal, draw: nat -> real)
      ensures Valid()
      ensures this.symbol == symbol && this.bot == bot && this.lotSize == lotSize && this.holdMinutes == holdMinutes
      ensures this.startDay == startDay && this.endDay == endDay && this.initialBalance == initialBalance
      ensures this.signalAt == signalAt && this.draw == draw
      ensures balance == initialBalance && positions == [] && trades == [] && equityCurve == []
    {
      this.symbol, this.bot, this.lotSize, this.holdMinutes := symbol, bot, lotSize, holdMinutes;
      this.startDay, this.endDay, this.initialBalance := startDay, endDay, initialBalance;
      this.signalAt, this.draw := signalAt, draw;
      balance, positions, trades, equityCurve := initialBalance, [], [], [];
    }

    /** `_execute_backtest_trade`: appends exactly one position at the configured lot and hold. */
    method ExecuteBacktestTrade(action: Action, price: real, entryTime: int) returns (p: Position)
      modifies this
      ensures p == Position(symbol, action, price, entryTime, lotSize, holdMinutes)
      ensures positions == old(positions) + [p]
      ensures balance == old(balance) && trades == old(trades) && equityCurve == old(equityCurve)
    {
      p := Position(symbol, action, price, entryTime, lotSize, holdMinutes);
      positions := positions + [p];
    }

    /** `_close_position`: the drawn P/L moves the balance, one trade is recorded with
        the new balance, and the first equal position is removed. */
    method ClosePosition(p: Position, exitTime: int, reason: ExitReason)
      requires Valid() && p in positions
      modifies this
      ensures Valid()
      ensures var pnl := draw(|old(trades)|);
        && balance == old(balance) + pnl
        && trades == old(trades) + [Trade(p, exitTime, reason, pnl, balance)]
      ensures positions == RemoveFirst(old(positions), p) && equityCurve == old(equityCurve)
    {
      var pnl := draw(|trades|);
      balance := balance + pnl;
      var x := Trade(p, exitTime, reason, pnl, balance);
      TotalPnlAppend(trades, x);
      BookedAppend(trades, x, initialBalance);
      trades := trades + [x];
      positions := RemoveFirst(positions, p);
    }

    /** `_check_position_exits`: over a copy of the list, closes exactly the positions
        held at least their hold time, and keeps the others in order. */
    method CheckPositionExits(t: int)
      requires Valid()
      modifies this
      ensures Valid() && old(trades) <= trades && equityCurve == old(equityCurve)
      ensures positions == Undue(old(positions), t)
      ensures ClosedWith(trades, |old(trades)|, DueOnes(old(positions), t), t, HoldTimeReached, draw)
    {
      var snapshot := positions;
      ghost var n0 := |trades|;
      for i := 0 to |snapshot|
        invariant Valid() && old(trades) <= trades && equityCurve == old(equityCurve)
        invariant ExitPassAt(snapshot, i, t, n0)
      {
        ExitStep(snapshot, i, t);
        if Due(snapshot[i], t) {
          CloseDue(snapshot, i, t, n0);
        }
      }
      assert snapshot[..|snapshot|] == snapshot;
    }

    /** Part way through the exit pass: the positions before `i` that were due are
        closed (trades from `n0` on), the others are still held, and the rest of the
        snapshot is untouched. */
    ghost predicate ExitPassAt(snapshot: seq<Position>, i: nat, t: int, n0: nat)
      requires i <= |snapshot|
      reads this
    {
      && positions == Undue(snapshot[..i], t) + snapshot[i..]
      && ClosedWith(trades, n0, DueOnes(snapshot[..i], t), t, HoldTimeReached, draw)
    }

    /** The exit pass closing the due position at `i` of the snapshot. */
    method CloseDue(snapshot: seq<Position>, i: nat, t: int, ghost n0: nat)
      requires i < |snapshot| && Due(snapshot[i], t)
      requires Valid() && ExitPassAt(snapshot, i, t, n0)
      modifies this
      ensures Valid() && ExitPassAt(snapshot, i + 1, t, n0)
      ensures old(trades) <= trades && equityCurve == old(equityCurve)
    {
      ExitStep(snapshot, i, t);
      ghost var before := trades;
      ClosePosition(snapshot[i], t, HoldTimeReached);
      ClosedWithAppend(before, n0, DueOnes(snapshot[..i], t), t, HoldTimeReached, draw, trades[|trades| - 1]);
    }

    /** The daily equity point: the balance, and the equity with every unrealised P/L at 0. */
    method RecordEquity(day: int)
      modifies this
      ensures equityCurve == old(equityCurve) + [EquityPoint(day, balance, balance)]
      ensures balance == old(balance) && positions == old(positions) && trades == old(trades)
    {
      equityCurve := equityCurve + [EquityPoint(day, balance, balance)];
    }

    /** The position the check at `t` opens: one, on a signal of the bot's side,
        at the signal's price with the configured lot and hold time. */
    function Opening(t: int): (r: seq<Position>)
      ensures |r| <= 1
      ensures |r| == 1 <==> signalAt(t).action == Some(BotAction(bot)) && signalAt(t).price.Some?
      ensures |r| == 1 ==> r[0] == Position(symbol, BotAction(bot), signalAt(t).price.value, t, lotSize, holdMinutes)
    {
      var signal := FilterSignal(signalAt(t), bot);
      if signal.action.Some? && signal.price.Some? then
        [Position(symbol, signal.action.value, signal.price.value, t, lotSize, holdMinutes)]
      else []
    }

    /** The positions the check at `t` leaves held: it opens, then keeps the ones
        not yet due. */
    function Step(held: seq<Position>, t: int): seq<Position> {
      Undue(held + Opening(t), t)
    }

    /** The positions that check closes, in list order. */
    function Closing(held: seq<Position>, t: int): seq<Position> {
      DueOnes(held + Opening(t), t)
    }

    /** One check time: a signal of the bot's side opens a position, then exactly
        the due positions close, with "Hold time reached" and the drawn P/Ls. */
    method Check(t: int)
      requires Valid()
      requires forall u :: signalAt(u).action.Some? ==> signalAt(u).price.Some?
      modifies this
      ensures Valid() && old(trades) <= trades && equityCurve == old(equityCurve)
      ensures positions == Step(old(positions), t)
      ensures ClosedWith(trades, |old(trades)|, Closing(old(positions), t), t, HoldTimeReached, draw)
    {
      var signal := FilterSignal(signalAt(t), bot);
      if signal.action.Some? {
        var _ := ExecuteBacktestTrade(signal.action.value, signal.price.value, t);
      }
      assert positions == old(positions) + Opening(t);
      CheckPositionExits(t);
    }

    /** The number of check times the run walks through: 48 a day, from the start
        date to the end date. */
    function RunTicks(): nat {
      48 * (if endDay >= startDay then endDay - startDay + 1 else 0)
    }

    /** The positions held after the checks at `first`, `first + 30`, ... (`n` of
        them), starting from `ps`. */
    function HeldAfter(ps: seq<Position>, first: int, n: nat): seq<Position> {
      Held(Step, ps, first, 30, n)
    }

    /** The positions those checks close, check by check and in list order within one. */
    function ClosedAfter(ps: seq<Position>, first: int, n: nat): seq<Position> {
      Closed(Step, Closing, ps, first, 30, n)
    }

    /** What the whole run opens, in order. */
    function RunOpened(): seq<Position> {
      Opened(Opening, startDay * 1440, 30, RunTicks())
    }

    /** `step` and `close` are `Step` and `Closing`. The run's loops take them as
        ghost parameters, so that their proofs need not look inside a check. */
    ghost predicate Ticks(step: (seq<Position>, int) -> seq<Position>, close: (seq<Position>, int) -> seq<Position>) {
      forall h, t {:trigger Step(h, t)} :: step(h, t) == Step(h, t) && close(h, t) == Closing(h, t)
    }

    /** One check neither loses nor duplicates a position. */
    lemma CheckConserves(h: seq<Position>, t: int)
      ensures multiset(Step(h, t)) + multiset(Closing(h, t)) == multiset(h) + multiset(Opening(t))
    {
      SettlePartition(h + Opening(t), t);
    }

    /** Over the whole run, what is closed and what is still held are together
        exactly what was opened. */
    lemma RunAccounted()
      ensures multiset(ClosedAfter([], startDay * 1440, RunTicks()) + HeldAfter([], startDay * 1440, RunTicks()))
              == multiset(RunOpened())
    {
      forall h, t
        ensures multiset(Step(h, t)) + multiset(Closing(h, t)) == multiset(h) + multiset(Opening(t))
      {
        CheckConserves(h, t);
      }
      var closed, held := ClosedAfter([], startDay * 1440, RunTicks()), HeldAfter([], startDay * 1440, RunTicks());
      Conserved(Step, Closing, Opening, [], startDay * 1440, 30, RunTicks());
      assert multiset(held) + multiset(closed) == multiset(RunOpened());
      assert multiset(closed + held) == multiset(closed) + multiset(held);
    }

    /** The run so far is its first `n` checks from the start date's midnight on,
        with the trades from index `n0` on: it holds what those checks hold, and
        those trades record what they close. */
    ghost predicate Simulated(step: (seq<Position>, int) -> seq<Position>, close: (seq<Position>, int) -> seq<Position>,
                              n: nat, n0: nat)
      reads this
    {
      && n0 <= |trades| && positions == Held(step, [], startDay * 1440, 30, n)
      && Entries(trades[n0..]) == Closed(step, close, [], startDay * 1440, 30, n)
      && DrawnHoldExits(trades, n0, draw)
    }

    /** The `j`-th check of the run. */
    method CheckNext(ghost step: (seq<Position>, int) -> seq<Position>, ghost close: (seq<Position>, int) -> seq<Position>,
                     ghost j: nat, t: int, ghost n0: nat)
      requires Ticks(step, close) && t == startDay * 1440 + 30 * j
      requires Valid() && Simulated(step, close, j, n0)
      requires forall u :: signalAt(u).action.Some? ==> signalAt(u).price.Some?
      modifies this
      ensures Valid() && old(trades) <= trades && equityCurve == old(equityCurve)
      ensures Simulated(step, close, j + 1, n0)
    {
      ghost var before, held := trades, positions;
      Check(t);
      assert step(held, t) == Step(held, t) && close(held, t) == Closing(held, t);
      ClosedWithEntries(trades, |before|, Closing(held, t), t, HoldTimeReached, draw);
      EntriesGrow(before, trades, n0);
      DrawnHoldExitsGrow(before, trades, n0, Closing(held, t), t, draw);
    }

    /** One simulated day: 48 check times, at minutes 0 and 30 of every hour, then
        one equity point. The `ticks` checks of the run before it are done. */
    method RunDay(day: int, ghost ticks: nat, ghost n0: nat,
                  ghost step: (seq<Position>, int) -> seq<Position>, ghost close: (seq<Position>, int) -> seq<Position>)
      requires Ticks(step, close) && ticks == 48 * (day - startDay)
      requires Valid() && Simulated(step, close, ticks, n0)
      requires forall u :: signalAt(u).action.Some? ==> signalAt(u).price.Some?
      modifies this
      ensures Valid() && old(trades) <= trades && Simulated(step, close, ticks + 48, n0)
      ensures equityCurve == old(equityCurve) + [EquityPoint(day, balance, balance)]
    {
      ghost var j := ticks;
      for hour := 0 to 24
        invariant j == ticks + 2 * hour
        invariant Valid() && old(trades) <= trades && equityCurve == old(equityCurve)
        invariant Simulated(step, close, j, n0)
      {
        CheckHour(day * 1440 + hour * 60, j, n0, step, close);
        j := j + 2;
      }
      RecordEquity(day);
    }

    /** The two checks of one hour, at its minutes 0 and 30: checks `j` and `j + 1` of the run. */
    method CheckHour(t: int, ghost j: nat, ghost n0: nat,
                     ghost step: (seq<Position>, int) -> seq<Position>, ghost close: (seq<Position>, int) -> seq<Position>)
      requires Ticks(step, close) && t == startDay * 1440 + 30 * j
      requires Valid() && Simulated(step, close, j, n0)
      requires forall u :: signalAt(u).action.Some? ==> signalAt(u).price.Some?
      modifies this
      ensures Valid() && old(trades) <= trades && equityCurve == old(equityCurve)
      ensures Simulated(step, close, j + 2, n0)
    {
      CheckNext(step, close, j, t, n0);
      CheckNext(step, close, j + 1, t + 30, n0);
    }

    /** After the last day: every leftover position closes at the end date and the list empties. */
    method CloseRemaining()
      requires Valid()
      modifies this
      ensures Valid() && positions == [] && equityCurve == old(equityCurve)
      ensures ClosedWith(trades, |old(trades)|, old(positions), endDay * 1440, BacktestEnd, draw)
      ensures trades[..|old(trades)|] == old(trades)
    {
      var snapshot := positions;
      ghost var n0 := |trades|;
      for i := 0 to |snapshot|
        invariant Valid() && positions == snapshot[i..] && equityCurve == old(equityCurve)
        invariant ClosedWith(trades, n0, snapshot[..i], endDay * 1440, BacktestEnd, draw)
        invariant trades[..n0] == old(trades)
      {
        CloseLeftover(snapshot, i, n0);
      }
      assert snapshot[..|snapshot|] == snapshot;
    }

    /** The closing of the leftover at `i` of the snapshot, always the first one still held. */
    method CloseLeftover(snapshot: seq<Position>, i: nat, ghost n0: nat)
      requires i < |snapshot| && Valid() && positions == snapshot[i..]
      requires ClosedWith(trades, n0, snapshot[..i], endDay * 1440, BacktestEnd, draw)
      modifies this
      ensures Valid() && positions == snapshot[i + 1..] && equityCurve == old(equityCurve)
      ensures ClosedWith(trades, n0, snapshot[..i + 1], endDay * 1440, BacktestEnd, draw)
      ensures old(trades) <= trades
    {
      ghost var before := trades;
      RemoveFirstAfter([], snapshot[i], snapshot[i + 1..]);
      assert [] + [snapshot[i]] + snapshot[i + 1..] == snapshot[i..] && positions[0] == snapshot[i];
      ClosePosition(snapshot[i], endDay * 1440, BacktestEnd);
      ClosedWithAppend(before, n0, snapshot[..i], endDay * 1440, BacktestEnd, draw, trades[|trades| - 1]);
      assert snapshot[..i + 1] == snapshot[..i] + [snapshot[i]];
    }

    /** Every day from the start date to the end date inclusive, one equity point each. */
    method RunDays(ghost step: (seq<Position>, int) -> seq<Position>, ghost close: (seq<Position>, int) -> seq<Position>)
      requires Ticks(step, close)
      requires Valid() && positions == [] && trades == [] && equityCurve == []
      requires forall u :: signalAt(u).action.Some? ==> signalAt(u).price.Some?
      modifies this
      ensures Valid() && Simulated(step, close, RunTicks(), 0)
      ensures |equityCurve| == if endDay >= startDay then endDay - startDay + 1 else 0
      ensures forall k :: 0 <= k < |equityCurve| ==> equityCurve[k].day == startDay + k
    {
      ghost var ticks := 0;
      var day := startDay;
      while day <= endDay
        invariant Valid()
        invariant startDay <= day && (day <= endDay + 1 || day == startDay)
        invariant ticks == 48 * (day - startDay) && Simulated(step, close, ticks, 0)
        invariant |equityCurve| == day - startDay
        invariant forall k :: 0 <= k < |equityCurve| ==> equityCurve[k].day == startDay + k
        decreases endDay - day
      {
        RunDay(day, ticks, 0, step, close);
        ticks := ticks + 48;
        day := day + 1;
      }
      assert ticks == RunTicks();
    }

    /** The trades from index `n0` on are those of a whole run: first the hold-time
        exits of the days, then the positions still held at the end, closed at the
        end date with "Backtest end", the k-th trade drawing P/L `draw(k)`; together
        they record every position the run opens, each once. */
    ghost predicate PeriodBooked(ts: seq<Trade>, n0: nat)
      reads this
    {
      && n0 <= |ts|
      && Entries(ts[n0..]) == ClosedAfter([], startDay * 1440, RunTicks()) + HeldAfter([], startDay * 1440, RunTicks())
      && multiset(Entries(ts[n0..])) == multiset(RunOpened())
      && DrawnHoldExits(ts[..n0 + |ClosedAfter([], startDay * 1440, RunTicks())|], n0, draw)
      && ClosedWith(ts, n0 + |ClosedAfter([], startDay * 1440, RunTicks())|,
                    HeldAfter([], startDay * 1440, RunTicks()), endDay * 1440, BacktestEnd, draw)
    }

    /** The day loop's hold-time exits followed by the closing of the leftovers make
        up the trades of a whole run. */
    lemma RunExits(before: seq<Trade>, ts: seq<Trade>, n0: nat, held: seq<Position>)
      requires n0 <= |before| && before <= ts
      requires Entries(before[n0..]) == ClosedAfter([], startDay * 1440, RunTicks())
      requires held == HeldAfter([], startDay * 1440, RunTicks())
      requires DrawnHoldExits(before, n0, draw)
      requires ClosedWith(ts, |before|, held, endDay * 1440, BacktestEnd, draw)
      ensures PeriodBooked(ts, n0)
    {
      ClosedWithEntries(ts, |before|, held, endDay * 1440, BacktestEnd, draw);
      EntriesGrow(before, ts, n0);
      RunAccounted();
      assert |before| == n0 + |ClosedAfter([], startDay * 1440, RunTicks())|;
      assert ts[..|before|] == before;
    }

    /** `run_backtest`: nothing happens without a broker connection; otherwise every
        day from the start to the end date inclusive is simulated with one equity
        point per day, the leftovers close at the end date, and the statistics are
        reported (the return percentage divides by the initial balance). */
    method RunBacktest(connected: bool) returns (r: RunResult)
      requires Valid() && positions == [] && trades == [] && equityCurve == []
      requires forall u :: signalAt(u).action.Some? ==> signalAt(u).price.Some?
      modifies this
      ensures Valid() && positions == []
      ensures !connected ==> r == RunResult.ConnectFailed && trades == [] && equityCurve == []
      ensures connected ==> |equityCurve| == if endDay >= startDay then endDay - startDay + 1 else 0
      ensures forall k :: 0 <= k < |equityCurve| ==> equityCurve[k].day == startDay + k
      ensures connected ==> (r == RunResult.DivisionByZero <==> trades != [] && initialBalance == 0.0)
      ensures r.Results? ==> r.stats.base == CalculateStatistics(trades, balance, initialBalance)
      ensures r.Results? ==> r.stats.base.finalBalance == initialBalance + r.stats.base.totalPnl
      ensures r.Results? && trades == [] ==> r.stats == BacktestStats(r.stats.base, 0.0, 0.0, NoSharpe)
      ensures r.Results? && trades != [] ==>
        && r.stats.maxDrawdown == MaxDrawdownOf(initialBalance, Balances(equityCurve))
        && r.stats.maxDrawdownPct == DrawdownPct(r.stats.maxDrawdown, PeakAfter(initialBalance, Balances(equityCurve)))
        && r.stats.sharpe == SharpeOf(trades)
      ensures connected ==> PeriodBooked(trades, 0)
    {
      if !connected {
        return RunResult.ConnectFailed;
      }
      RunDays(Step, Closing);
      ghost var held, before := positions, trades;
      CloseRemaining();
      RunExits(before, trades, 0, held);
      var stats := Statistics();
      r := if stats.Some? then Results(stats.value) else RunResult.DivisionByZero;
    }

    /** `_calculate_statistics`. */
    method Statistics() returns (stats: Option<BacktestStats>)
      ensures stats.None? <==> trades != [] && initialBalance == 0.0
      ensures stats.Some? ==> stats.value.base == CalculateStatistics(trades, balance, initialBalance)
      ensures stats.Some? && trades == [] ==> stats.value == BacktestStats(stats.value.base, 0.0, 0.0, NoSharpe)
      ensures stats.Some? && trades != [] ==>
        && stats.value.maxDrawdown == MaxDrawdownOf(initialBalance, Balances(equityCurve))
        && stats.value.maxDrawdownPct == DrawdownPct(stats.value.maxDrawdown, PeakAfter(initialBalance, Balances(equityCurve)))
        && stats.value.sharpe == SharpeOf(trades)
    {
      if trades == [] {
        return Some(BacktestStats(CalculateStatistics(trades, balance, initialBalance), 0.0, 0.0, NoSharpe));
      }
      if initialBalance == 0.0 {
        return None;
      }
      var maxDd, peak := MaxDrawdown(initialBalance, equityCurve);
      stats := Some(BacktestStats(CalculateStatistics(trades, balance, initialBalance), maxDd,
                                  DrawdownPct(maxDd, peak), SharpeOf(trades)));
    }
  }
}
