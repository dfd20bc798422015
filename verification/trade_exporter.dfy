/** The trade ledger: an append-only list of trade records. Opening appends an
    OPEN record; closing flips the first OPEN record with the ticket to CLOSED
    and fills in its exit data. The CSV and JSON writers are not modelled. */
module TradeLedger {
  import opened Market

  datatype Status = Open | Closed

  /** The `trade_data` dictionary; absent optional keys are `None`. */
  datatype OpenRequest = OpenRequest(ticket: int, symbol: string, action: Action, volume: real,
                                     entryPrice: real, entryTime: Option<int>, sl: Option<real>,
                                     tp: Option<real>, botType: Option<string>)

  /** The `close_data` dictionary; absent keys are `None`. */
  datatype CloseRequest = CloseRequest(exitPrice: Option<real>, exitTime: Option<int>, exitReason: Option<string>,
                                       pnl: Option<real>, balanceAfter: Option<real>)

  datatype TradeRecord = TradeRecord(ticket: int, symbol: string, action: Action, volume: real,
                                     entryPrice: real, entryTime: int, sl: real, tp: real, botType: string,
                                     status: Status, exitPrice: Option<real>, exitTime: Option<int>,
                                     exitReason: Option<string>, pnl: Option<real>, balanceAfter: Option<real>)

  function GetOr<T>(o: Option<T>, default: T): T {
    if o.Some? then o.value else default
  }

  /** The record `record_trade_open` appends: OPEN, no exit data, sl/tp 0.0 and
      bot type 'UNKNOWN' when absent, entry time `now` when absent. */
  function OpenRecord(req: OpenRequest, now: int): (r: TradeRecord)
    ensures r.status == Open && r.ticket == req.ticket
    ensures r.exitPrice.None? && r.exitTime.None? && r.exitReason.None? && r.pnl.None? && r.balanceAfter.None?
    ensures req.sl.None? ==> r.sl == 0.0
    ensures req.tp.None? ==> r.tp == 0.0
    ensures req.botType.None? ==> r.botType == "UNKNOWN"
    ensures req.entryTime.None? ==> r.entryTime == now
  {
    TradeRecord(req.ticket, req.symbol, req.action, req.volume, req.entryPrice, GetOr(req.entryTime, now),
                GetOr(req.sl, 0.0), GetOr(req.tp, 0.0), GetOr(req.botType, "UNKNOWN"),
                Open, None, None, None, None, None)
  }

  predicate IsOpenFor(t: TradeRecord, ticket: int) {
    t.ticket == ticket && t.status == Open
  }

  /** The index of the first OPEN record with the ticket at or after `k`. */
  function FirstOpenFrom(trades: seq<TradeRecord>, ticket: int, k: nat): (r: Option<nat>)
    requires k <= |trades|
    ensures r.Some? ==> k <= r.value < |trades| && IsOpenFor(trades[r.value], ticket)
    ensures r.Some? ==> forall j :: k <= j < r.value ==> !IsOpenFor(trades[j], ticket)
    ensures r.None? ==> forall j :: k <= j < |trades| ==> !IsOpenFor(trades[j], ticket)
    decreases |trades| - k
  {
    if k == |trades| then None
    else if IsOpenFor(trades[k], ticket) then Some(k)
    else FirstOpenFrom(trades, ticket, k + 1)
  }

  function FirstOpen(trades: seq<TradeRecord>, ticket: int): Option<nat> {
    FirstOpenFrom(trades, ticket, 0)
  }

  /** The exit data a close writes: reason 'Unknown', P/L 0.0 and exit time `now` when absent. */
  function CloseRecord(t: TradeRecord, req: CloseRequest, now: int): (r: TradeRecord)
    ensures r.status == Closed && r.pnl.Some? && r.exitReason.Some? && r.exitTime.Some?
    ensures r.ticket == t.ticket && r.symbol == t.symbol && r.action == t.action && r.volume == t.volume
    ensures r.entryPrice == t.entryPrice && r.entryTime == t.entryTime && r.botType == t.botType
    ensures req.exitReason.None? ==> r.exitReason == Some("Unknown")
    ensures req.pnl.None? ==> r.pnl == Some(0.0)
  {
    t.(status := Closed, exitPrice := req.exitPrice, exitTime := Some(GetOr(req.exitTime, now)),
       exitReason := Some(GetOr(req.exitReason, "Unknown")), pnl := Some(GetOr(req.pnl, 0.0)),
       balanceAfter := req.balanceAfter)
  }

  /** `record_trade_close` on the list: only the first OPEN record with the ticket
      changes; an unknown or already closed ticket leaves the list as it is. */
  function CloseTrade(trades: seq<TradeRecord>, ticket: int, req: CloseRequest, now: int): (r: seq<TradeRecord>)
    ensures |r| == |trades|
    ensures FirstOpen(trades, ticket).None? ==> r == trades
    ensures FirstOpen(trades, ticket).Some? ==>
      var i := FirstOpen(trades, ticket).value;
      && r[i] == CloseRecord(trades[i], req, now)
      && (forall j :: 0 <= j < |trades| && j != i ==> r[j] == trades[j])
  {
    match FirstOpen(trades, ticket)
    case None => trades
    case Some(i) => trades[i := CloseRecord(trades[i], req, now)]
  }

  /** The records with a given status, in ledger order. */
  function WithStatus(trades: seq<TradeRecord>, s: Status): (r: seq<TradeRecord>)
    ensures |r| <= |trades|
    ensures forall k :: 0 <= k < |r| ==> r[k].status == s
  {
    if trades == [] then []
    else WithStatus(trades[..|trades| - 1], s) + (if Last(trades).status == s then [Last(trades)] else [])
  }

  /** The filter keeps exactly the records with status `s`. */
  lemma {:induction false} WithStatusMembers(trades: seq<TradeRecord>, s: Status)
    ensures forall x :: x in WithStatus(trades, s) <==> x in trades && x.status == s
  {
    if trades != [] {
      var init := trades[..|trades| - 1];
      WithStatusMembers(init, s);
      assert trades == init + [Last(trades)];
    }
  }

  /** The P/L `get_statistics` reads from a record, 0 when it has none. */
  function RecordPnl(t: TradeRecord): real {
    GetOr(t.pnl, 0.0)
  }

  function Wins(ts: seq<TradeRecord>): seq<TradeRecord> {
    if ts == [] then [] else Wins(ts[..|ts| - 1]) + (if RecordPnl(Last(ts)) > 0.0 then [Last(ts)] else [])
  }

  function Losses(ts: seq<TradeRecord>): seq<TradeRecord> {
    if ts == [] then [] else Losses(ts[..|ts| - 1]) + (if RecordPnl(Last(ts)) <= 0.0 then [Last(ts)] else [])
  }

  function PnlSum(ts: seq<TradeRecord>): real {
    if ts == [] then 0.0 else PnlSum(ts[..|ts| - 1]) + RecordPnl(Last(ts))
  }

  /** Every record is a win or a loss, never both. */
  lemma {:induction false} WinsAndLossesPartition(ts: seq<TradeRecord>)
    ensures |Wins(ts)| + |Losses(ts)| == |ts|
    ensures forall k :: 0 <= k < |Wins(ts)| ==> RecordPnl(Wins(ts)[k]) > 0.0
    ensures forall k :: 0 <= k < |Losses(ts)| ==> RecordPnl(Losses(ts)[k]) <= 0.0
  {
    if ts != [] {
      WinsAndLossesPartition(ts[..|ts| - 1]);
    }
  }

  /** The wins are exactly the records with a positive P/L, the losses the others. */
  lemma {:induction false} WinsAndLossesMembers(ts: seq<TradeRecord>)
    ensures forall x :: x in Wins(ts) <==> x in ts && RecordPnl(x) > 0.0
    ensures forall x :: x in Losses(ts) <==> x in ts && RecordPnl(x) <= 0.0
  {
    if ts != [] {
      var init := ts[..|ts| - 1];
      WinsAndLossesMembers(init);
      assert ts == init + [Last(ts)];
    }
  }

  /** The P/Ls of the wins and of the losses add up to the total; the wins sum to
      a positive P/L when there are any, the losses to at most zero. */
  lemma {:induction false} WinsAndLossesPnl(ts: seq<TradeRecord>)
    ensures PnlSum(Wins(ts)) + PnlSum(Losses(ts)) == PnlSum(ts)
    ensures Wins(ts) != [] ==> PnlSum(Wins(ts)) > 0.0
    ensures PnlSum(Losses(ts)) <= 0.0
  {
    if ts != [] {
      var init, x := ts[..|ts| - 1], Last(ts);
      WinsAndLossesPnl(init);
      assert PnlSum(ts) == PnlSum(init) + RecordPnl(x);
      if RecordPnl(x) > 0.0 {
        var w := Wins(ts);
        assert w == Wins(init) + [x];
        assert w[..|w| - 1] == Wins(init);
        assert PnlSum(w) == PnlSum(Wins(init)) + RecordPnl(x);
        assert Losses(ts) == Losses(init) + [] == Losses(init);
      } else {
        assert Wins(ts) == Wins(init) + [] == Wins(init);
        var l := Losses(ts);
        assert l == Losses(init) + [x];
        assert l[..|l| - 1] == Losses(init);
        assert PnlSum(l) == PnlSum(Losses(init)) + RecordPnl(x);
      }
    }
  }

  /** `sum / len` for a non-empty list of P/Ls, 0 for an empty one. */
  function AveragePnl(ts: seq<TradeRecord>): (a: real)
    ensures ts == [] ==> a == 0.0
    ensures ts != [] ==> a * (|ts| as real) == PnlSum(ts)
  {
    if ts != [] then PnlSum(ts) / (|ts| as real) else 0.0
  }

  /** The largest P/L of a non-empty list. */
  function BestPnl(ts: seq<TradeRecord>): (m: real)
    requires ts != []
    ensures forall k :: 0 <= k < |ts| ==> RecordPnl(ts[k]) <= m
    ensures exists k :: 0 <= k < |ts| && RecordPnl(ts[k]) == m
  {
    if |ts| == 1 then RecordPnl(ts[0])
    else
      var m := BestPnl(ts[..|ts| - 1]);
      if RecordPnl(Last(ts)) > m then RecordPnl(Last(ts)) else m
  }

  /** The smallest P/L of a non-empty list. */
  function WorstPnl(ts: seq<TradeRecord>): (m: real)
    requires ts != []
    ensures forall k :: 0 <= k < |ts| ==> m <= RecordPnl(ts[k])
    ensures exists k :: 0 <= k < |ts| && RecordPnl(ts[k]) == m
  {
    if |ts| == 1 then RecordPnl(ts[0])
    else
      var m := WorstPnl(ts[..|ts| - 1]);
      if RecordPnl(Last(ts)) < m then RecordPnl(Last(ts)) else m
  }

  /** `part / whole * 100` for a non-empty whole. */
  function Percent(part: nat, whole: nat): (p: real)
    requires whole > 0
    ensures p * (whole as real) == (part as real) * 100.0
  {
    var n := whole as real;
    var q := (part as real) / n;
    assert q * n == part as real;
    q * 100.0
  }

  /** The `get_statistics` dictionary. With no closed trade the source leaves out
      `open_trades`, `best_trade` and `worst_trade`; those are `None` here. */
  datatype LedgerStats = LedgerStats(totalTrades: nat, openTrades: Option<nat>, winningTrades: nat,
                                     losingTrades: nat, winRate: real, totalPnl: real, avgWin: real,
                                     avgLoss: real, bestTrade: Option<real>, worstTrade: Option<real>)

  /** `get_statistics`: figures over the CLOSED records only. */
  function Statistics(trades: seq<TradeRecord>): (s: LedgerStats)
    ensures var closed := WithStatus(trades, Closed);
      && s.totalTrades == |closed|
      && (closed == [] ==> s == LedgerStats(0, None, 0, 0, 0.0, 0.0, 0.0, 0.0, None, None))
      && (closed != [] ==>
            && s.winningTrades + s.losingTrades == s.totalTrades
            && s.winningTrades == |Wins(closed)| && s.losingTrades == |Losses(closed)|
            && s.totalPnl == PnlSum(closed)
            && s.avgWin == AveragePnl(Wins(closed)) && s.avgLoss == AveragePnl(Losses(closed))
            && s.openTrades == Some(|WithStatus(trades, Open)|)
            && s.winRate == Percent(s.winningTrades, s.totalTrades)
            && s.bestTrade.Some? && s.worstTrade.Some?
            && (forall k :: 0 <= k < |closed| ==> s.worstTrade.value <= RecordPnl(closed[k]) <= s.bestTrade.value)
            && (exists k :: 0 <= k < |closed| && RecordPnl(closed[k]) == s.bestTrade.value)
            && (exists k :: 0 <= k < |closed| && RecordPnl(closed[k]) == s.worstTrade.value))
  {
    var closed := WithStatus(trades, Closed);
    if closed == [] then LedgerStats(0, None, 0, 0, 0.0, 0.0, 0.0, 0.0, None, None)
    else
      var wins, losses := Wins(closed), Losses(closed);
      WinsAndLossesPartition(closed);
      var rate := Percent(|wins|, |closed|);
      LedgerStats(|closed|, Some(|WithStatus(trades, Open)|), |wins|, |losses|, rate, PnlSum(closed),
                  AveragePnl(wins), AveragePnl(losses), Some(BestPnl(closed)), Some(WorstPnl(closed)))
  }

  /** Appending a record adds it to the list of its status and to no other. */
  lemma WithStatusAppend(trades: seq<TradeRecord>, t: TradeRecord, s: Status)
    ensures WithStatus(trades + [t], s) == WithStatus(trades, s) + (if t.status == s then [t] else [])
  {
    assert (trades + [t])[..|trades|] == trades;
  }

  /** The number of records with status `s` in the list. */
  function CountStatus(trades: seq<TradeRecord>, s: Status): nat {
    if trades == [] then 0 else CountStatus(trades[..|trades| - 1], s) + (if Last(trades).status == s then 1 else 0)
  }

  lemma {:induction false} CountIsFilterLength(trades: seq<TradeRecord>, s: Status)
    ensures CountStatus(trades, s) == |WithStatus(trades, s)|
  {
    if trades != [] {
      CountIsFilterLength(trades[..|trades| - 1], s);
    }
  }

  /** Changing one record's status moves exactly one count from its old status to its new one. */
  lemma {:induction false} CountAfterUpdate(trades: seq<TradeRecord>, i: nat, t: TradeRecord, s: Status)
    requires i < |trades|
    ensures CountStatus(trades[i := t], s) + (if trades[i].status == s then 1 else 0)
         == CountStatus(trades, s) + (if t.status == s then 1 else 0)
  {
    var u := trades[i := t];
    if i == |trades| - 1 {
      assert u[..|u| - 1] == trades[..|trades| - 1];
    } else {
      assert u[..|u| - 1] == trades[..|trades| - 1][i := t];
      CountAfterUpdate(trades[..|trades| - 1], i, t, s);
    }
  }

  /** A successful close turns one OPEN record into a CLOSED one: the closed count
      grows by one and the open count shrinks by one. */
  lemma CloseMovesOneRecord(trades: seq<TradeRecord>, ticket: int, req: CloseRequest, now: int)
    requires FirstOpen(trades, ticket).Some?
    ensures var r := CloseTrade(trades, ticket, req, now);
      && |WithStatus(r, Closed)| == |WithStatus(trades, Closed)| + 1
      && |WithStatus(r, Open)| + 1 == |WithStatus(trades, Open)|
  {
    var i := FirstOpen(trades, ticket).value;
    var r := CloseTrade(trades, ticket, req, now);
    assert r == trades[i := CloseRecord(trades[i], req, now)];
    CountAfterUpdate(trades, i, CloseRecord(trades[i], req, now), Closed);
    CountAfterUpdate(trades, i, CloseRecord(trades[i], req, now), Open);
    CountIsFilterLength(trades, Closed);
    CountIsFilterLength(trades, Open);
    CountIsFilterLength(r, Closed);
    CountIsFilterLength(r, Open);
  }

  /** A ticket with a single OPEN record is closed once; closing it again changes nothing. */
  lemma SecondCloseIsNoOp(trades: seq<TradeRecord>, ticket: int, req: CloseRequest, req2: CloseRequest, now: int, now2: int)
    requires FirstOpen(trades, ticket).Some?
    requires forall j :: 0 <= j < |trades| && j != FirstOpen(trades, ticket).value ==> !IsOpenFor(trades[j], ticket)
    ensures var once := CloseTrade(trades, ticket, req, now);
      CloseTrade(once, ticket, req2, now2) == once
  {
    var once := CloseTrade(trades, ticket, req, now);
    var i := FirstOpen(trades, ticket).value;
    assert forall j :: 0 <= j < |once| ==> !IsOpenFor(once[j], ticket) by {
      forall j | 0 <= j < |once| ensures !IsOpenFor(once[j], ticket) {
        if j != i {
          assert once[j] == trades[j];
        }
      }
    }
    assert FirstOpenFrom(once, ticket, 0).None?;
  }

  /** The recorded export scenario: ticket 999888777 opened as a SELL of 0.01 at
      90332.84 and closed at 90350.20 with P/L 1.74 leaves one CLOSED trade, one win
      and a total of 1.74. */
  lemma ExportScenario(openedAt: int, closedAt: int)
    ensures var req := OpenRequest(999888777, "PainX 400", Sell, 0.01, 90332.84, Some(openedAt),
                                   Some(0.0), Some(0.0), Some("PAIN"));
      var close := CloseRequest(Some(90350.20), Some(closedAt), Some("Test trade - Hold period complete"),
                                Some(1.74), Some(501.74));
      var ledger := CloseTrade([OpenRecord(req, openedAt)], 999888777, close, closedAt);
      var stats := Statistics(ledger);
      && |ledger| == 1 && ledger[0].status == Closed && ledger[0].pnl == Some(1.74)
      && stats.totalTrades == 1 && stats.winningTrades == 1 && stats.openTrades == Some(0)
      && stats.totalPnl == 1.74
  {
    var req := OpenRequest(999888777, "PainX 400", Sell, 0.01, 90332.84, Some(openedAt),
                           Some(0.0), Some(0.0), Some("PAIN"));
    var close := CloseRequest(Some(90350.20), Some(closedAt), Some("Test trade - Hold period complete"),
                              Some(1.74), Some(501.74));
    var ledger := CloseTrade([OpenRecord(req, openedAt)], 999888777, close, closedAt);
    assert FirstOpen([OpenRecord(req, openedAt)], 999888777) == Some(0);
    assert WithStatus(ledger, Closed) == ledger by {
      assert ledger[..0] == [];
    }
    assert WithStatus(ledger, Open) == [] by {
      assert ledger[..0] == [];
    }
    assert Wins(ledger) == ledger by {
      assert ledger[..0] == [];
    }
    assert PnlSum(ledger) == 1.74 by {
      assert ledger[..0] == [];
    }
  }

  /** The global `trade_exporter`, without its output directory. */
  class Ledger {
    var trades: seq<TradeRecord>

    constructor ()
      ensures trades == []
    {
      trades := [];
    }

    method RecordTradeOpen(req: OpenRequest, now: int)
      modifies this
      ensures trades == old(trades) + [OpenRecord(req, now)]
    {
      trades := trades + [OpenRecord(req, now)];
    }

    /** Finds the first OPEN record for the ticket with a search loop and closes it. */
    method RecordTradeClose(ticket: int, req: CloseRequest, now: int)
      modifies this
      ensures trades == CloseTrade(old(trades), ticket, req, now)
    {
      var i := 0;
      while i < |trades|
        invariant 0 <= i <= |trades|
        invariant FirstOpenFrom(trades, ticket, 0) == FirstOpenFrom(trades, ticket, i)
      {
        if IsOpenFor(trades[i], ticket) {
          trades := trades[i := CloseRecord(trades[i], req, now)];
          return;
        }
        i := i + 1;
      }
    }

    function GetStatistics(): LedgerStats
      reads this
    {
      Statistics(trades)
    }
  }
}
