/** `HistoricalBacktester.run_backtest`: a chronological replay over the
    preloaded history in 5-minute ticks that opens a position on each signal,
    closes positions once their hold time has elapsed and books the P/L.
    Times are integer minutes; day `d` starts at minute `d * 1440`. */
module HistoricalReplay {
  import opened Market
  import opened Indicators
  import opened HistoricalBacktester

  /** Each trade's `balance_after` is the initial balance plus the P/L of the
      trades up to and including it (stated on the last trade, recursively). */
  ghost predicate Booked(trades: seq<Trade>, initial: real) {
    trades == [] ||
    (Booked(trades[..|trades| - 1], initial) && Last(trades).balanceAfter == initial + TotalPnl(trades))
  }

  lemma BookedAppend(trades: seq<Trade>, x: Trade, initial: real)
    requires Booked(trades, initial)
    requires x.balanceAfter == initial + TotalPnl(trades) + x.pnl
    ensures Booked(trades + [x], initial)
  {
    assert (trades + [x])[..|trades|] == trades;
    TotalPnlAppend(trades, x);
  }

  /** The recursive bookkeeping rule, read trade by trade. */
  lemma {:induction false} BookedEach(trades: seq<Trade>, initial: real)
    requires Booked(trades, initial)
    ensures forall i :: 0 <= i < |trades| ==> trades[i].balanceAfter == initial + TotalPnl(trades[..i + 1])
  {
    if trades != [] {
      var init := trades[..|trades| - 1];
      BookedEach(init, initial);
      forall i | 0 <= i < |trades|
        ensures trades[i].balanceAfter == initial + TotalPnl(trades[..i + 1])
      {
        if i < |init| {
          assert trades[..i + 1] == init[..i + 1];
        } else {
          assert trades[..i + 1] == trades;
        }
      }
    }
  }

  /** A position is due once the elapsed minutes reach its hold time. */
  predicate Due(p: Position, t: int) {
    t - p.entryTime >= p.holdMinutes
  }

  /** The positions still held after the tick at `t`. */
  function Undue(ps: seq<Position>, t: int): (r: seq<Position>)
    ensures |r| <= |ps|
    ensures forall i :: 0 <= i < |r| ==> !Due(r[i], t)
  {
    if ps == [] then []
    else
      var init := ps[..|ps| - 1];
      Undue(init, t) + (if Due(Last(ps), t) then [] else [Last(ps)])
  }

  /** The positions closed at the tick at `t`, in list order. */
  function DueOnes(ps: seq<Position>, t: int): (r: seq<Position>)
    ensures |r| <= |ps|
    ensures forall i :: 0 <= i < |r| ==> Due(r[i], t)
  {
    if ps == [] then []
    else
      var init := ps[..|ps| - 1];
      DueOnes(init, t) + (if Due(Last(ps), t) then [Last(ps)] else [])
  }

  /** Whatever holds of every position still holds of every kept one. */
  lemma {:induction false} UndueKeeps(ps: seq<Position>, t: int, P: Position -> bool)
    requires forall i :: 0 <= i < |ps| ==> P(ps[i])
    ensures forall i :: 0 <= i < |Undue(ps, t)| ==> P(Undue(ps, t)[i])
  {
    if ps != [] {
      var init := ps[..|ps| - 1];
      assert forall i :: 0 <= i < |init| ==> init[i] == ps[i];
      UndueKeeps(init, t, P);
    }
  }

  /** Whatever holds of every position still holds of every closed one. */
  lemma {:induction false} DueOnesKeeps(ps: seq<Position>, t: int, P: Position -> bool)
    requires forall i :: 0 <= i < |ps| ==> P(ps[i])
    ensures forall i :: 0 <= i < |DueOnes(ps, t)| ==> P(DueOnes(ps, t)[i])
  {
    if ps != [] {
      var init := ps[..|ps| - 1];
      assert forall i :: 0 <= i < |init| ==> init[i] == ps[i];
      DueOnesKeeps(init, t, P);
    }
  }

  /** Closing never loses or duplicates a position: every one is either kept or closed. */
  lemma {:induction false} SettleSplits(ps: seq<Position>, t: int)
    ensures |Undue(ps, t)| + |DueOnes(ps, t)| == |ps|
  {
    if ps != [] {
      SettleSplits(ps[..|ps| - 1], t);
    }
  }

  /** ... as often as it occurs: the kept and the closed positions make up the list. */
  lemma {:induction false} SettlePartition(ps: seq<Position>, t: int)
    ensures multiset(Undue(ps, t)) + multiset(DueOnes(ps, t)) == multiset(ps)
  {
    if ps != [] {
      var init := ps[..|ps| - 1];
      SettlePartition(init, t);
      assert ps == init + [Last(ps)];
    }
  }

  /** The kept positions are exactly the ones not due, the closed ones exactly the due ones. */
  lemma {:induction false} SettleMembers(ps: seq<Position>, t: int)
    ensures forall p :: p in Undue(ps, t) <==> p in ps && !Due(p, t)
    ensures forall p :: p in DueOnes(ps, t) <==> p in ps && Due(p, t)
  {
    if ps != [] {
      var init := ps[..|ps| - 1];
      SettleMembers(init, t);
      assert ps == init + [Last(ps)];
    }
  }

  /** Both lists keep the order of the positions: settling a concatenation
      concatenates the settled parts. */
  lemma {:induction false} SettleConcat(a: seq<Position>, b: seq<Position>, t: int)
    ensures Undue(a + b, t) == Undue(a, t) + Undue(b, t)
    ensures DueOnes(a + b, t) == DueOnes(a, t) + DueOnes(b, t)
  {
    if b == [] {
      assert a + b == a;
    } else {
      var init := b[..|b| - 1];
      SettleConcat(a, init, t);
      assert (a + b)[..|a + b| - 1] == a + init;
      assert Last(a + b) == Last(b);
      var kept := if Due(Last(b), t) then [] else [Last(b)];
      var closed := if Due(Last(b), t) then [Last(b)] else [];
      assert Undue(a + b, t) == Undue(a + init, t) + kept;
      assert DueOnes(a + b, t) == DueOnes(a + init, t) + closed;
      ConcatAssoc(Undue(a, t), Undue(init, t), kept);
      ConcatAssoc(DueOnes(a, t), DueOnes(init, t), closed);
    }
  }

  /** No multiple of 5 lies strictly between `5 * k` and `5 * (k + 1)`. */
  lemma FifthMinutes(d: int, k: int)
    requires 5 * k < d < 5 * k + 5
    ensures d % 5 != 0
  {
  }

  /** Shifting by a multiple of 5 keeps the remainder. */
  lemma ShiftByFive(t: int, m: int)
    ensures (t - 5 * m) % 5 == t % 5
  {
  }

  /** The positions the trades closed, in order. */
  function Entries(ts: seq<Trade>): (r: seq<Position>)
    ensures |r| == |ts|
  {
    if ts == [] then [] else Entries(ts[..|ts| - 1]) + [Last(ts).position]
  }

  /** The `k`-th entry is the `k`-th trade's position. */
  lemma {:induction false} EntriesAt(ts: seq<Trade>)
    ensures forall k :: 0 <= k < |ts| ==> Entries(ts)[k] == ts[k].position
  {
    if ts != [] {
      var init := ts[..|ts| - 1];
      EntriesAt(init);
      assert forall k :: 0 <= k < |init| ==> init[k] == ts[k];
    }
  }

  lemma EntriesConcat(a: seq<Trade>, b: seq<Trade>)
    ensures Entries(a + b) == Entries(a) + Entries(b)
  {
    EntriesAt(a);
    EntriesAt(b);
    EntriesAt(a + b);
  }

  /** The trades from index `m` on, once more trades were appended. */
  lemma EntriesGrow(ts: seq<Trade>, ts': seq<Trade>, m: nat)
    requires m <= |ts| && ts <= ts'
    ensures Entries(ts'[m..]) == Entries(ts[m..]) + Entries(ts'[|ts|..])
  {
    assert ts'[m..] == ts[m..] + ts'[|ts|..];
    EntriesConcat(ts[m..], ts'[|ts|..]);
  }

  /** The multiset step of `Conserved`: settling `h + o` into kept and closed
      ones moves the closed ones over to the closed list. */
  lemma Regather(kept: multiset<Position>, closed: multiset<Position>, h: multiset<Position>, o: multiset<Position>,
                 before: multiset<Position>, h0: multiset<Position>, a: multiset<Position>)
    requires kept + closed == h + o && h + before == h0 + a
    ensures kept + (before + closed) == h0 + (a + o)
  {
    forall x {
      calc {
        (kept + (before + closed))[x];
        (kept + closed)[x] + before[x];
        (h + before)[x] + o[x];
        (h0 + (a + o))[x];
      }
    }
  }

  /** The positions held after `n` ticks at `first`, `first + gap`, ..., each one
      turning the held list `h` into `step(h, t)`. */
  function Held(step: (seq<Position>, int) -> seq<Position>, ps: seq<Position>, first: int, gap: int, n: nat): seq<Position> {
    if n == 0 then ps else step(Held(step, ps, first, gap, n - 1), first + gap * (n - 1))
  }

  /** The positions those ticks close, tick by tick: `close(h, t)` at each. */
  function Closed(step: (seq<Position>, int) -> seq<Position>, close: (seq<Position>, int) -> seq<Position>,
                  ps: seq<Position>, first: int, gap: int, n: nat): seq<Position> {
    if n == 0 then []
    else Closed(step, close, ps, first, gap, n - 1) + close(Held(step, ps, first, gap, n - 1), first + gap * (n - 1))
  }

  /** The positions those ticks open: `open(t)` at each. */
  function Opened(open: int -> seq<Position>, first: int, gap: int, n: nat): seq<Position> {
    if n == 0 then [] else Opened(open, first, gap, n - 1) + open(first + gap * (n - 1))
  }

  /** Five-minute ticks after `endMin` change nothing: once the `k`-th is past it, running
      `n` ticks holds and closes what running `k` does. */
  lemma {:induction false} IdleTicks(step: (seq<Position>, int) -> seq<Position>, close: (seq<Position>, int) -> seq<Position>,
                                     ps: seq<Position>, first: int, k: nat, n: nat, endMin: int)
    requires k <= n && first + 5 * k > endMin
    requires forall h, t :: t > endMin ==> step(h, t) == h && close(h, t) == []
    ensures Held(step, ps, first, 5, n) == Held(step, ps, first, 5, k)
    ensures Closed(step, close, ps, first, 5, n) == Closed(step, close, ps, first, 5, k)
  {
    if n > k {
      IdleTicks(step, close, ps, first, k, n - 1, endMin);
      assert Closed(step, close, ps, first, 5, n) == Closed(step, close, ps, first, 5, n - 1) + [];
    }
  }

  /** Ticks that neither lose nor duplicate a position, each leaving held and
      closing together what was held and what it opens, do so over any number
      of ticks. */
  lemma {:induction false} Conserved(step: (seq<Position>, int) -> seq<Position>, close: (seq<Position>, int) -> seq<Position>,
                                     open: int -> seq<Position>, ps: seq<Position>, first: int, gap: int, n: nat)
    requires forall h, t :: multiset(step(h, t)) + multiset(close(h, t)) == multiset(h) + multiset(open(t))
    ensures multiset(Held(step, ps, first, gap, n)) + multiset(Closed(step, close, ps, first, gap, n))
            == multiset(ps) + multiset(Opened(open, first, gap, n))
  {
    if n > 0 {
      Conserved(step, close, open, ps, first, gap, n - 1);
      var h := Held(step, ps, first, gap, n - 1);
      var t := first + gap * (n - 1);
      Regather(multiset(step(h, t)), multiset(close(h, t)), multiset(h), multiset(open(t)),
               multiset(Closed(step, close, ps, first, gap, n - 1)), multiset(ps), multiset(Opened(open, first, gap, n - 1)));
    }
  }

  /** A position opened at a tick with a positive hold time is not closed at that tick. */
  lemma FreshPositionStays(ps: seq<Position>, p: Position, t: int)
    requires p.entryTime == t && p.holdMinutes > 0
    ensures Undue(ps + [p], t) == Undue(ps, t) + [p]
    ensures DueOnes(ps + [p], t) == DueOnes(ps, t)
  {
    assert (ps + [p])[..|ps|] == ps;
  }

  /** From index `from` on, `ts` records exactly the positions `ps`, in order,
      each closed at `t` for `reason` with the P/L `pnl` gives it. */
  ghost predicate ClosedAs(ts: seq<Trade>, from: nat, ps: seq<Position>, t: int, reason: ExitReason,
                           pnl: (Position, int) -> real) {
    && |ts| == from + |ps|
    && forall k :: from <= k < |ts| ==>
         && ts[k].position == ps[k - from] && ts[k].exitTime == t && ts[k].exitReason == reason
         && ts[k].pnl == pnl(ts[k].position, t)
  }

  /** Trades closed as `ps` record exactly the positions `ps`. */
  lemma ClosedAsEntries(ts: seq<Trade>, from: nat, ps: seq<Position>, t: int, reason: ExitReason,
                        pnl: (Position, int) -> real)
    requires ClosedAs(ts, from, ps, t, reason, pnl)
    ensures Entries(ts[from..]) == ps
  {
    EntriesAt(ts[from..]);
  }

  lemma ClosedAsAppend(ts: seq<Trade>, from: nat, ps: seq<Position>, t: int, reason: ExitReason,
                       pnl: (Position, int) -> real, x: Trade)
    requires ClosedAs(ts, from, ps, t, reason, pnl)
    requires x.exitTime == t && x.exitReason == reason && x.pnl == pnl(x.position, t)
    ensures ClosedAs(ts + [x], from, ps + [x.position], t, reason, pnl)
  {
  }

  /** Every trade from index `from` on is a hold exit, booked with the P/L `pnl`
      gives its position at its exit time. */
  ghost predicate HoldExits(ts: seq<Trade>, from: nat, pnl: (Position, int) -> real) {
    forall k :: from <= k < |ts| ==>
      ts[k].exitReason == HoldPeriodComplete && ts[k].pnl == pnl(ts[k].position, ts[k].exitTime)
  }

  /** Hold exits appended after hold exits keep the record of hold exits. */
  lemma HoldExitsGrow(ts: seq<Trade>, ts': seq<Trade>, from: nat, ps: seq<Position>, t: int, pnl: (Position, int) -> real)
    requires HoldExits(ts, from, pnl) && ts <= ts'
    requires ClosedAs(ts', |ts|, ps, t, HoldPeriodComplete, pnl)
    ensures HoldExits(ts', from, pnl)
  {
    assert forall k :: from <= k < |ts| ==> ts'[k] == ts[k];
  }

  /** A closed trade lies inside the window `[startMin, endMin]`; a hold exit came
      within 5 minutes after its hold time ended (the tick grid itself is not
      recorded here), an end exit at the end. */
  ghost predicate Timed(x: Trade, startMin: int, endMin: int) {
    && startMin <= x.position.entryTime <= x.exitTime <= endMin
    && (x.exitReason == HoldPeriodComplete ==>
          x.position.holdMinutes <= x.exitTime - x.position.entryTime < x.position.holdMinutes + 5)
    && (x.exitReason == BacktestEnd ==> x.exitTime == endMin)
  }

  /** How a replay ends: no broker connection, no history, a zero initial balance
      the return percentage would divide by, or the statistics. */
  datatype ReplayResult = ConnectFailed | LoadFailed | DivisionByZero | Finished(stats: Stats)

  class Replay {
    const cache: Cache
    const symbol: string
    const bot: BotType
    const cfg: StrategyParams
    const lotSize: real
    const holdMinutes: nat
    const startDay: int
    const endDay: int
    const initialBalance: real
    /** The strict cascade on this history, one result per check time. */
    const signalAt: int -> Option<Signal>
    /** `simulate_trade_exit` on this history. */
    const exitPnl: (Position, int) -> real
    var balance: real
    var positions: seq<Position>
    var trades: seq<Trade>

    /** The books balance: the balance is the initial one plus every realised P/L. */
    ghost predicate Valid()
      reads this
    {
      balance == initialBalance + TotalPnl(trades) && Booked(trades, initialBalance)
    }

    constructor (cache: Cache, symbol: string, bot: BotType, cfg: StrategyParams, lotSize: real,
                 holdMinutes: nat, startDay: int, endDay: int, initialBalance: real)
      ensures Valid()
      ensures this.cache == cache && this.symbol == symbol && this.bot == bot && this.cfg == cfg
      ensures this.lotSize == lotSize && this.holdMinutes == holdMinutes
      ensures this.startDay == startDay && this.endDay == endDay && this.initialBalance == initialBalance
      ensures balance == initialBalance && positions == [] && trades == []
      ensures forall t :: signalAt(t) == CheckSignalAtTime(cache, symbol, t, bot, cfg)
      ensures forall p, t :: exitPnl(p, t) == SimulateTradeExit(cache, symbol, p, t)
    {
      signalAt := t => CheckSignalAtTime(cache, symbol, t, bot, cfg);
      exitPnl := (p, t) => SimulateTradeExit(cache, symbol, p, t);
      this.cache, this.symbol, this.bot, this.cfg := cache, symbol, bot, cfg;
      this.lotSize, this.holdMinutes := lotSize, holdMinutes;
      this.startDay, this.endDay, this.initialBalance := startDay, endDay, initialBalance;
      balance, positions, trades := initialBalance, [], [];
    }

    /** The position a tick opens: one when the strict cascade signals, none otherwise. */
    function Opening(t: int): (r: seq<Position>)
      ensures |r| <= 1
      ensures |r| == 1 <==> signalAt(t).Some?
      ensures |r| == 1 ==>
        && r[0].symbol == symbol && r[0].action == signalAt(t).value.action
        && r[0].entryPrice == signalAt(t).value.price
        && r[0].entryTime == t && r[0].holdMinutes == holdMinutes && r[0].volume == lotSize
    {
      var signal := signalAt(t);
      if signal.None? then []
      else [Position(symbol, signal.value.action, signal.value.price, t, lotSize, holdMinutes)]
    }

    /** What the ticks at `first`, `first + 5`, ... (`n` of them) open, in order;
        a tick past the end date opens nothing, as the minute loop stops there. */
    function OpenedAt(first: int, n: nat): seq<Position> {
      Opened(Fresh, first, 5, n)
    }

    /** What the tick at `t` opens; past the end date the minute loop has stopped. */
    function Fresh(t: int): seq<Position> {
      if t <= endDay * 1440 then Opening(t) else []
    }

    /** A position is opened by those ticks exactly when it is what the tick at its
        entry time opens, and that time is a fifth minute from `first` on, before
        `first + 5 * n` and not past the end date. */
    lemma {:induction false} OpenedAtMembers(first: int, n: nat)
      ensures forall p :: p in OpenedAt(first, n) <==>
        && first <= p.entryTime < first + 5 * n && (p.entryTime - first) % 5 == 0
        && p.entryTime <= endDay * 1440 && Opening(p.entryTime) == [p]
    {
      if n > 0 {
        OpenedAtMembers(first, n - 1);
        forall p
          ensures p in OpenedAt(first, n) <==>
            && first <= p.entryTime < first + 5 * n && (p.entryTime - first) % 5 == 0
            && p.entryTime <= endDay * 1440 && Opening(p.entryTime) == [p]
        {
          if first + 5 * (n - 1) < p.entryTime < first + 5 * n {
            FifthMinutes(p.entryTime - first, n - 1);
          }
        }
      }
    }

    /** What the whole run opens: the ticks of every day from the start date to the end date. */
    function RunOpened(): seq<Position> {
      OpenedAt(startDay * 1440, RunTicks())
    }

    /** The run opens a position exactly at the fifth minutes from the start date's
        midnight up to the end date's midnight at which the strict cascade signals. */
    lemma RunOpenedMembers()
      ensures forall p :: p in RunOpened() <==>
        startDay * 1440 <= p.entryTime <= endDay * 1440 && p.entryTime % 5 == 0 && Opening(p.entryTime) == [p]
    {
      var n := 288 * (if endDay >= startDay then endDay - startDay + 1 else 0);
      OpenedAtMembers(startDay * 1440, n);
      forall p
        ensures p in RunOpened() <==>
          startDay * 1440 <= p.entryTime <= endDay * 1440 && p.entryTime % 5 == 0 && Opening(p.entryTime) == [p]
      {
        ShiftByFive(p.entryTime, 288 * startDay);
      }
    }

    /** The number of 5-minute ticks the run walks through: 288 a day, from the
        start date to the end date. */
    function RunTicks(): nat {
      288 * (if endDay >= startDay then endDay - startDay + 1 else 0)
    }

    /** The positions one tick at `t` leaves held: it opens on a signal and keeps
        the ones not yet due; past the end date it does nothing. */
    function Step(held: seq<Position>, t: int): seq<Position> {
      if t <= endDay * 1440 then Undue(held + Opening(t), t) else held
    }

    /** The positions that tick closes. */
    function Closing(held: seq<Position>, t: int): seq<Position> {
      if t <= endDay * 1440 then DueOnes(held + Opening(t), t) else []
    }

    /** The positions held after the ticks at `first`, `first + 5`, ... (`n` of
        them), starting from `ps`. */
    function HeldAfter(ps: seq<Position>, first: int, n: nat): seq<Position> {
      Held(Step, ps, first, 5, n)
    }

    /** The positions those ticks close, tick by tick and in list order within a tick. */
    function ClosedAfter(ps: seq<Position>, first: int, n: nat): seq<Position> {
      Closed(Step, Closing, ps, first, 5, n)
    }

    /** `step` and `close` are `Step` and `Closing`. The run's loops take them as
        ghost parameters, so that their proofs need not look inside a tick. */
    ghost predicate Ticks(step: (seq<Position>, int) -> seq<Position>, close: (seq<Position>, int) -> seq<Position>) {
      forall h, t {:trigger Step(h, t)} :: step(h, t) == Step(h, t) && close(h, t) == Closing(h, t)
    }

    /** Past the end date a tick holds what was held and closes nothing. */
    lemma TicksIdle(step: (seq<Position>, int) -> seq<Position>, close: (seq<Position>, int) -> seq<Position>)
      requires Ticks(step, close)
      ensures forall h, t :: t > endDay * 1440 ==> step(h, t) == h && close(h, t) == []
    {
      forall h, t | t > endDay * 1440
        ensures step(h, t) == h && close(h, t) == []
      {
        assert Step(h, t) == h;
      }
    }

    /** One tick neither loses nor duplicates a position: what it keeps and what
        it closes are what was held and what it opens. */
    lemma TickConserves(h: seq<Position>, t: int)
      ensures multiset(Step(h, t)) + multiset(Closing(h, t)) == multiset(h) + multiset(Fresh(t))
    {
      if t <= endDay * 1440 {
        SettlePartition(h + Opening(t), t);
      }
    }

    /** Every position the run opens ends up closed exactly once: the positions it
        closes during the days and the ones left at the end are, as a multiset,
        exactly the ones it opened. */
    lemma RunAccounted()
      ensures multiset(ClosedAfter([], startDay * 1440, RunTicks()) + HeldAfter([], startDay * 1440, RunTicks()))
              == multiset(RunOpened())
    {
      forall h, t
        ensures multiset(Step(h, t)) + multiset(Closing(h, t)) == multiset(h) + multiset(Fresh(t))
      {
        TickConserves(h, t);
      }
      var closed, held := ClosedAfter([], startDay * 1440, RunTicks()), HeldAfter([], startDay * 1440, RunTicks());
      Conserved(Step, Closing, Fresh, [], startDay * 1440, 5, RunTicks());
      assert multiset(held) + multiset(closed) == multiset(RunOpened());
      assert multiset(closed + held) == multiset(closed) + multiset(held);
    }

    /** Books one exit: the simulated P/L moves the balance and one trade is recorded. */
    method Close(p: Position, t: int, reason: ExitReason)
      requires Valid()
      modifies this
      ensures Valid()
      ensures positions == old(positions)
      ensures var pnl := exitPnl(p, t);
        balance == old(balance) + pnl && trades == old(trades) + [Trade(p, t, reason, pnl, balance)]
    {
      var pnl := exitPnl(p, t);
      balance := balance + pnl;
      var x := Trade(p, t, reason, pnl, balance);
      TotalPnlAppend(trades, x);
      BookedAppend(trades, x, initialBalance);
      trades := trades + [x];
    }

    /** The exit pass of a tick: over a snapshot of the positions, close every due one
        ('Hold period complete') and keep the rest in order. */
    method SettleDue(t: int)
      requires Valid()
      modifies this
      ensures Valid() && old(trades) <= trades
      ensures positions == Undue(old(positions), t)
      ensures ClosedAs(trades, |old(trades)|, DueOnes(old(positions), t), t, HoldPeriodComplete, exitPnl)
    {
      var snapshot := positions;
      var kept: seq<Position> := [];
      ghost var n0 := |trades|;
      for i := 0 to |snapshot|
        invariant Valid() && old(trades) <= trades
        invariant kept == Undue(snapshot[..i], t)
        invariant ClosedAs(trades, n0, DueOnes(snapshot[..i], t), t, HoldPeriodComplete, exitPnl)
      {
        assert snapshot[..i + 1][..i] == snapshot[..i];
        assert Undue(snapshot[..i + 1], t) == Undue(snapshot[..i], t) + (if Due(snapshot[i], t) then [] else [snapshot[i]]);
        assert DueOnes(snapshot[..i + 1], t) == DueOnes(snapshot[..i], t) + (if Due(snapshot[i], t) then [snapshot[i]] else []);
        if Due(snapshot[i], t) {
          ghost var before := trades;
          Close(snapshot[i], t, HoldPeriodComplete);
          ClosedAsAppend(before, n0, DueOnes(snapshot[..i], t), t, HoldPeriodComplete, exitPnl, trades[|trades| - 1]);
        } else {
          kept := kept + [snapshot[i]];
        }
      }
      assert snapshot[..|snapshot|] == snapshot;
      positions := kept;
    }

    /** Every held position was opened by this replay, on or before `last`, and
        was not yet due at `last`. */
    ghost predicate HeldSince(last: int)
      reads this
    {
      forall i :: 0 <= i < |positions| ==>
        && positions[i].holdMinutes == holdMinutes
        && startDay * 1440 <= positions[i].entryTime <= last
        && last - positions[i].entryTime < positions[i].holdMinutes
    }

    /** Every trade from index `n0` on lies inside the backtest window; a hold exit
        came at the first 5-minute tick after the hold time, an end exit at the end. */
    ghost predicate TradesTimed(n0: nat)
      reads this
    {
      forall k :: n0 <= k < |trades| ==> Timed(trades[k], startDay * 1440, endDay * 1440)
    }

    /** The entry half of a tick: a strict signal at `t` opens one position. */
    method OpenOnSignal(t: int)
      modifies this
      ensures positions == old(positions) + Opening(t)
      ensures balance == old(balance) && trades == old(trades)
    {
      var signal := signalAt(t);
      if signal.Some? {
        positions := positions + [Position(symbol, signal.value.action, signal.value.price, t, lotSize, holdMinutes)];
      }
    }

    /** One tick of the replay loop: open on a signal, then settle due positions. */
    method Tick(t: int, ghost n0: nat)
      requires Running(t - 5, n0)
      requires startDay * 1440 <= t <= endDay * 1440
      modifies this
      ensures Running(t, n0)
      ensures positions == Undue(old(positions) + Opening(t), t)
      ensures old(trades) <= trades
      ensures ClosedAs(trades, |old(trades)|, DueOnes(old(positions) + Opening(t), t), t, HoldPeriodComplete, exitPnl)
    {
      OpenOnSignal(t);
      ghost var pending := positions;
      ghost var recent := (p: Position) =>
        p.holdMinutes == holdMinutes && startDay * 1440 <= p.entryTime <= t && t - p.entryTime < p.holdMinutes + 5;
      assert forall i :: 0 <= i < |pending| ==> recent(pending[i]);
      UndueKeeps(pending, t, recent);
      DueOnesKeeps(pending, t, recent);
      ghost var m, before := |trades|, trades;
      SettleDue(t);
      HoldExitsGrow(before, trades, n0, DueOnes(pending, t), t, exitPnl);
      forall k | n0 <= k < |trades|
        ensures Timed(trades[k], startDay * 1440, endDay * 1440)
      {
        if k >= m {
          assert trades[k].position == DueOnes(pending, t)[k - m];
        } else {
          assert trades[k] == old(trades)[k];
        }
      }
    }

    /** The trades from index `n0` on are those of a whole run: first the hold
        exits of the days, each booked with its simulated P/L, then the positions
        still held at the end, closed at the end date with "Backtest end";
        together they record every position the run opens, each once. */
    ghost predicate PeriodBooked(ts: seq<Trade>, n0: nat) {
      && n0 <= |ts|
      && Entries(ts[n0..]) == ClosedAfter([], startDay * 1440, RunTicks()) + HeldAfter([], startDay * 1440, RunTicks())
      && multiset(Entries(ts[n0..])) == multiset(RunOpened())
      && (forall k :: n0 <= k < n0 + |ClosedAfter([], startDay * 1440, RunTicks())| ==>
            ts[k].exitReason == HoldPeriodComplete && ts[k].pnl == exitPnl(ts[k].position, ts[k].exitTime))
      && ClosedAs(ts, n0 + |ClosedAfter([], startDay * 1440, RunTicks())|,
                  HeldAfter([], startDay * 1440, RunTicks()), endDay * 1440, BacktestEnd, exitPnl)
    }

    /** The day loop's hold exits followed by the closing of the leftovers make
        up the trades of a whole run. */
    lemma RunExits(before: seq<Trade>, ts: seq<Trade>, n0: nat, held: seq<Position>)
      requires n0 <= |before| && before <= ts
      requires Entries(before[n0..]) == ClosedAfter([], startDay * 1440, RunTicks())
      requires held == HeldAfter([], startDay * 1440, RunTicks())
      requires HoldExits(before, n0, exitPnl)
      requires ClosedAs(ts, |before|, held, endDay * 1440, BacktestEnd, exitPnl)
      ensures PeriodBooked(ts, n0)
    {
      ClosedAsEntries(ts, |before|, held, endDay * 1440, BacktestEnd, exitPnl);
      EntriesGrow(before, ts, n0);
      RunAccounted();
      assert |before| == n0 + |ClosedAfter([], startDay * 1440, RunTicks())|;
      assert forall k :: n0 <= k < |before| ==> ts[k] == before[k];
    }

    /** The replay so far is the first `n` ticks of the run, from the start date's
        midnight on, with the trades from index `n0` on: it holds what those ticks
        hold, and those trades record what they close. */
    ghost predicate Replayed(step: (seq<Position>, int) -> seq<Position>, close: (seq<Position>, int) -> seq<Position>,
                             n: nat, n0: nat)
      reads this
    {
      && n0 <= |trades| && positions == Held(step, [], startDay * 1440, 5, n)
      && Entries(trades[n0..]) == Closed(step, close, [], startDay * 1440, 5, n)
    }

    /** Tick number `j` of the run, at `t`. */
    method TickNext(ghost step: (seq<Position>, int) -> seq<Position>, ghost close: (seq<Position>, int) -> seq<Position>, ghost j: nat, t: int, ghost n0: nat)
      requires Ticks(step, close)
      requires t == startDay * 1440 + 5 * j && t <= endDay * 1440
      requires Running(t - 5, n0) && Replayed(step, close, j, n0)
      modifies this
      ensures Running(t, n0) && old(trades) <= trades && Replayed(step, close, j + 1, n0)
    {
      ghost var before, held := trades, positions;
      Tick(t, n0);
      TickFolds(step, close, j, t, n0, held, before, trades);
    }

    /** The tick at `t` is tick number `j` of the fold: what it keeps and closes,
        appended to the trades, advances the fold by one tick. */
    lemma TickFolds(step: (seq<Position>, int) -> seq<Position>, close: (seq<Position>, int) -> seq<Position>,
                    j: nat, t: int, n0: nat, held: seq<Position>, before: seq<Trade>, ts: seq<Trade>)
      requires Ticks(step, close) && t == startDay * 1440 + 5 * j
      requires held == Held(step, [], startDay * 1440, 5, j)
      requires n0 <= |before| && Entries(before[n0..]) == Closed(step, close, [], startDay * 1440, 5, j)
      requires before <= ts && ClosedAs(ts, |before|, DueOnes(held + Opening(t), t), t, HoldPeriodComplete, exitPnl)
      ensures t <= endDay * 1440 ==> Undue(held + Opening(t), t) == Held(step, [], startDay * 1440, 5, j + 1)
      ensures t <= endDay * 1440 ==> Entries(ts[n0..]) == Closed(step, close, [], startDay * 1440, 5, j + 1)
    {
      assert step(held, t) == Step(held, t) && close(held, t) == Closing(held, t);
      ClosedAsEntries(ts, |before|, DueOnes(held + Opening(t), t), t, HoldPeriodComplete, exitPnl);
      EntriesGrow(before, ts, n0);
    }

    /** What holds between ticks: the books balance, the held positions were
        not due at the last tick, and the trades since `n0` are well timed. */
    ghost predicate Running(last: int, n0: nat)
      reads this
    {
      && Valid() && HeldSince(last) && TradesTimed(n0) && n0 <= |trades| && HoldExits(trades, n0, exitPnl)
      && last >= startDay * 1440 - 5
      && (positions == [] || last <= endDay * 1440)
    }

    /** A replay whose next check time is past the end date already is the
        replay of any longer run. */
    lemma IdleReplay(step: (seq<Position>, int) -> seq<Position>, close: (seq<Position>, int) -> seq<Position>,
                     j: nat, m: nat, n0: nat)
      requires Ticks(step, close) && j <= m && startDay * 1440 + 5 * j > endDay * 1440
      requires Replayed(step, close, j, n0)
      ensures Replayed(step, close, m, n0)
    {
      TicksIdle(step, close);
      IdleTicks(step, close, [], startDay * 1440, j, m, endDay * 1440);
    }

    /** The ticks of one hour: minutes 0, 5, ..., 55, leaving the loop at the
        first check time past the end date. The `ticks` ticks of the run before
        it are done. */
    method RunHour(day: int, hour: int, ghost ticks: nat, ghost last: int, ghost n0: nat, ghost step: (seq<Position>, int) -> seq<Position>, ghost close: (seq<Position>, int) -> seq<Position>)
        returns (ghost last': int)
      requires Ticks(step, close) && ticks == 288 * (day - startDay) + 12 * hour
      requires Running(last, n0) && Replayed(step, close, ticks, n0)
      requires last + 5 == day * 1440 + hour * 60 || day * 1440 + hour * 60 > endDay * 1440
      modifies this
      ensures Running(last', n0) && old(trades) <= trades && Replayed(step, close, ticks + 12, n0)
      ensures last' + 5 == day * 1440 + hour * 60 + 60 || day * 1440 + hour * 60 + 60 > endDay * 1440
    {
      last' := last;
      ghost var j := ticks;
      var k := 0;
      while k < 12 && day * 1440 + hour * 60 + 5 * k <= endDay * 1440
        invariant 0 <= k <= 12 && j == ticks + k
        invariant Running(last', n0) && old(trades) <= trades && Replayed(step, close, j, n0)
        invariant last' + 5 == day * 1440 + hour * 60 + 5 * k || day * 1440 + hour * 60 + 5 * k > endDay * 1440
      {
        var minute := 5 * k;
        var checkTime := day * 1440 + hour * 60 + minute;
        TickNext(step, close, j, checkTime, n0);
        last' := checkTime;
        k := k + 1;
        j := j + 1;
      }
      if k < 12 {
        IdleReplay(step, close, j, ticks + 12, n0);
      } else {
        assert j == ticks + 12;
      }
    }

    /** The 24 hours of one day; the `ticks` ticks of the run before it are done. */
    method RunDay(day: int, ghost ticks: nat, ghost last: int, ghost n0: nat, ghost step: (seq<Position>, int) -> seq<Position>, ghost close: (seq<Position>, int) -> seq<Position>) returns (ghost last': int)
      requires Ticks(step, close) && ticks == 288 * (day - startDay)
      requires Running(last, n0) && Replayed(step, close, ticks, n0)
      requires last + 5 == day * 1440 || day * 1440 > endDay * 1440
      modifies this
      ensures Running(last', n0) && old(trades) <= trades && Replayed(step, close, ticks + 288, n0)
      ensures last' + 5 == (day + 1) * 1440 || (day + 1) * 1440 > endDay * 1440
    {
      last' := last;
      ghost var j := ticks;
      var hour := 0;
      while hour < 24
        invariant 0 <= hour <= 24 && j == ticks + 12 * hour
        invariant Running(last', n0) && old(trades) <= trades && Replayed(step, close, j, n0)
        invariant last' + 5 == day * 1440 + hour * 60 || day * 1440 + hour * 60 > endDay * 1440
      {
        last' := RunHour(day, hour, j, last', n0, step, close);
        j := j + 12;
        hour := hour + 1;
      }
      assert j == ticks + 288;
    }

    /** The days from the start date to the end date, every 5 minutes from 00:00;
        of the end date only the 00:00 tick is inside. */
    method RunDays(ghost n0: nat, ghost step: (seq<Position>, int) -> seq<Position>, ghost close: (seq<Position>, int) -> seq<Position>) returns (ghost last: int)
      requires Ticks(step, close) && Valid() && positions == [] && n0 == |trades|
      modifies this
      ensures Running(last, n0) && old(trades) <= trades && Replayed(step, close, RunTicks(), n0)
    {
      last := startDay * 1440 - 5;
      ghost var ticks: nat := 0;
      var day := startDay;
      while day <= endDay
        invariant Running(last, n0) && old(trades) <= trades
        invariant last + 5 == day * 1440 || day * 1440 > endDay * 1440
        invariant startDay <= day && (day <= endDay + 1 || day == startDay)
        invariant ticks == 288 * (day - startDay) && Replayed(step, close, ticks, n0)
        decreases endDay - day
      {
        last := RunDay(day, ticks, last, n0, step, close);
        ticks := ticks + 288;
        day := day + 1;
      }
      assert ticks == RunTicks();
    }

    /** After the last day: every leftover position closes at the end date
        ('Backtest end') and the list is emptied. */
    method CloseRemaining(ghost last: int, ghost n0: nat)
      requires Running(last, n0)
      modifies this
      ensures Valid() && TradesTimed(n0) && positions == [] && old(trades) <= trades
      ensures ClosedAs(trades, |old(trades)|, old(positions), endDay * 1440, BacktestEnd, exitPnl)
    {
      var snapshot := positions;
      ghost var m := |trades|;
      assert forall j :: 0 <= j < |snapshot| ==> startDay * 1440 <= snapshot[j].entryTime <= endDay * 1440;
      for i := 0 to |snapshot|
        invariant Valid() && TradesTimed(n0) && positions == snapshot && old(trades) <= trades
        invariant ClosedAs(trades, m, snapshot[..i], endDay * 1440, BacktestEnd, exitPnl)
      {
        ghost var before := trades;
        Close(snapshot[i], endDay * 1440, BacktestEnd);
        ClosedAsAppend(before, m, snapshot[..i], endDay * 1440, BacktestEnd, exitPnl, trades[|trades| - 1]);
        assert snapshot[..i + 1] == snapshot[..i] + [snapshot[i]];
        assert Timed(trades[|trades| - 1], startDay * 1440, endDay * 1440);
        assert forall k :: n0 <= k < |before| ==> trades[k] == before[k];
      }
      assert snapshot[..|snapshot|] == snapshot;
      positions := [];
    }

    /** The replay proper: the days from the start date to the end date, then the
        leftover positions close at the end date. The new trades are the hold exits
        of the days, with their simulated P/L, then the leftovers, closed with
        "Backtest end"; so every position the run opens ends up in exactly one trade. */
    method RunPeriod()
      requires Valid() && positions == []
      modifies this
      ensures Valid() && positions == [] && old(trades) <= trades
      ensures TradesTimed(|old(trades)|) && PeriodBooked(trades, |old(trades)|)
    {
      ghost var n0 := |trades|;
      ghost var step, close := Step, Closing;
      ghost var last := RunDays(n0, step, close);
      ghost var held, before := positions, trades;
      CloseRemaining(last, n0);
      RunExits(before, trades, n0, held);
    }

    /** The whole replay: nothing when the broker connection or the history
        download fails; otherwise `RunPeriod`, then the statistics, withheld where
        the source would divide by a zero initial balance. */
    method RunBacktest(connected: bool, loaded: bool) returns (r: ReplayResult)
      requires Valid() && positions == []
      modifies this
      ensures Valid() && positions == [] && old(trades) <= trades
      ensures TradesTimed(|old(trades)|)
      ensures !connected ==> r == ConnectFailed && trades == old(trades) && balance == old(balance)
      ensures connected && !loaded ==> r == LoadFailed && trades == old(trades) && balance == old(balance)
      ensures connected && loaded ==> (r == DivisionByZero <==> trades != [] && initialBalance == 0.0)
      ensures connected && loaded && r != DivisionByZero ==> r == Finished(CalculateStatistics(trades, balance, initialBalance))
      ensures r.Finished? ==> r.stats.finalBalance == initialBalance + r.stats.totalPnl
      ensures connected && loaded ==> PeriodBooked(trades, |old(trades)|)
    {
      if !connected {
        return ConnectFailed;
      }
      if !loaded {
        return LoadFailed;
      }
      RunPeriod();
      if trades != [] && initialBalance == 0.0 {
        r := DivisionByZero;
      } else {
        r := Finished(CalculateStatistics(trades, balance, initialBalance));
      }
    }
  }
}
