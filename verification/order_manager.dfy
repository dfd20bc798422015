/** Order lifecycle of one bot: the entry gate (consecutive-order cap, cooldown,
    purple-line side), the exit decision (hold period, then stop loss or take
    profit) and the bookkeeping of tracked positions, entry times and
    consecutive-order counters. Times are in seconds; every broker answer
    (bars, quote, send result, close result, balance) is an input. */
module Orders {
  import opened Market
  import opened Indicators
  import Signals
  import TradeLedger

  /** The configuration values the order manager reads. */
  datatype OrderConfig = OrderConfig(maxConsecutiveOrders: int, holdMinutes: nat, waitCandles: nat,
                                     purpleLineEma: Period)

  /** Defaults: 3 consecutive orders, 5-minute hold, 1 wait candle, purple line EMA 34. */
  const DefaultOrderConfig := OrderConfig(3, 5, 1, 34)

  /** One entry of `active_positions`. */
  datatype TrackedPosition = TrackedPosition(symbol: string, action: Action, volume: real, entryPrice: real,
                                             entryTime: int, sl: real, tp: real, holdUntil: int)

  /** The three dictionaries the order manager keeps. */
  datatype OrderState = OrderState(active: map<int, TrackedPosition>, lastEntry: map<string, int>,
                                   consecutive: map<string, int>)

  /** The answer of the entry gate; every value but `Ok` is a refusal with its reason. */
  datatype Gate = Ok | MaxConsecutive(count: int) | Waiting(elapsedMinutes: real, minWaitMinutes: nat)
                | NoM5Data | PriceAboveLine | PriceBelowLine

  function CountFor(st: OrderState, symbol: string): int {
    if symbol in st.consecutive then st.consecutive[symbol] else 0
  }

  /** The last M5 close and the last purple-line value over the newest 10 M5 bars. */
  function M5Position(feed: Signals.Feed, p: Period): (r: Option<(real, real)>)
    ensures r.Some? <==> Signals.GetBars(feed, M5, 10).Some?
  {
    match Signals.GetBars(feed, M5, 10)
    case None => None
    case Some(m5) => Some((Last(m5).close, Last(PurpleLine(m5, p))))
  }

  /** The side of the purple line a bot's entries must stay on: below for PAIN, above for GAIN. */
  predicate OnTradeSide(bot: BotType, price: real, line: real) {
    if bot == Pain then price < line else price > line
  }

  /** `check_purple_line_position`. */
  function PurpleLineGate(feed: Signals.Feed, bot: BotType, p: Period): (g: Gate)
    ensures g == Ok || g == NoM5Data || g == PriceAboveLine || g == PriceBelowLine
    ensures g == NoM5Data <==> M5Position(feed, p).None?
    ensures g == Ok <==> M5Position(feed, p).Some? && OnTradeSide(bot, M5Position(feed, p).value.0, M5Position(feed, p).value.1)
    ensures g == PriceAboveLine ==> bot == Pain
    ensures g == PriceBelowLine ==> bot == Gain
  {
    match M5Position(feed, p)
    case None => NoM5Data
    case Some((price, line)) =>
      if bot == Pain then (if price >= line then PriceAboveLine else Ok)
      else (if price <= line then PriceBelowLine else Ok)
  }

  function ElapsedMinutes(now: int, last: int): real {
    (now - last) as real / 60.0
  }

  /** Hold minutes plus five minutes per wait candle. */
  function MinWaitMinutes(cfg: OrderConfig): nat {
    cfg.holdMinutes + cfg.waitCandles * 5
  }

  /** The cooldown, read in whole seconds: fewer than 60 seconds per minute of wait have passed. */
  lemma CooldownInSeconds(now: int, last: int, m: nat)
    ensures ElapsedMinutes(now, last) < m as real <==> now - last < 60 * m
  {
    var d := (now - last) as real;
    assert ElapsedMinutes(now, last) * 60.0 == d;
  }

  /** `can_open_new_order`: the cap, then the cooldown, then the purple-line side; the first refusal wins. */
  function CanOpen(st: OrderState, symbol: string, now: int, feed: Signals.Feed, bot: BotType, cfg: OrderConfig): (g: Gate)
    ensures g.MaxConsecutive? <==> CountFor(st, symbol) >= cfg.maxConsecutiveOrders
    ensures g.Waiting? <==> CountFor(st, symbol) < cfg.maxConsecutiveOrders && symbol in st.lastEntry
                            && now - st.lastEntry[symbol] < 60 * MinWaitMinutes(cfg)
    ensures g == Ok <==> CountFor(st, symbol) < cfg.maxConsecutiveOrders
                         && (symbol in st.lastEntry ==> now - st.lastEntry[symbol] >= 60 * MinWaitMinutes(cfg))
                         && PurpleLineGate(feed, bot, cfg.purpleLineEma) == Ok
    ensures (g == NoM5Data || g == PriceAboveLine || g == PriceBelowLine) ==> g == PurpleLineGate(feed, bot, cfg.purpleLineEma)
  {
    var count := CountFor(st, symbol);
    if count >= cfg.maxConsecutiveOrders then MaxConsecutive(count)
    else if symbol in st.lastEntry then
      var last := st.lastEntry[symbol];
      CooldownInSeconds(now, last, MinWaitMinutes(cfg));
      if ElapsedMinutes(now, last) < MinWaitMinutes(cfg) as real then Waiting(ElapsedMinutes(now, last), MinWaitMinutes(cfg))
      else PurpleLineGate(feed, bot, cfg.purpleLineEma)
    else PurpleLineGate(feed, bot, cfg.purpleLineEma)
  }

  /** What the broker answers to a successful order send. */
  datatype SendResult = SendResult(ticket: int, price: real)

  function BotName(bot: BotType): string {
    if bot == Pain then "PAIN" else "GAIN"
  }

  /** `execute_order` on the state: nothing changes unless the gate passes and the
      broker fills the order; a fill stamps the entry time, counts the order, tracks
      the ticket until its hold period ends and appends an OPEN ledger record. */
  function Execute(st: OrderState, trades: seq<TradeLedger.TradeRecord>, symbol: string, action: Action,
                   volume: real, sl: real, tp: real, feed: Signals.Feed, now: int, bot: BotType,
                   cfg: OrderConfig, sent: Option<SendResult>): (r: (Option<SendResult>, OrderState, seq<TradeLedger.TradeRecord>))
    ensures r.0.Some? <==> CanOpen(st, symbol, now, feed, bot, cfg) == Ok && sent.Some?
    ensures r.0.None? ==> r.1 == st && r.2 == trades
    ensures r.0.Some? ==>
      var (ticket, st') := (sent.value.ticket, r.1);
      && r.0 == sent
      && st'.lastEntry == st.lastEntry[symbol := now]
      && CountFor(st', symbol) == CountFor(st, symbol) + 1
      && (forall s :: s != symbol ==> CountFor(st', s) == CountFor(st, s))
      && st'.active.Keys == st.active.Keys + {ticket}
      && st'.active[ticket] == TrackedPosition(symbol, action, volume, sent.value.price, now, sl, tp,
                                               now + 60 * cfg.holdMinutes)
      && (forall t :: t in st.active && t != ticket ==> st'.active[t] == st.active[t])
      && r.2 == trades + [TradeLedger.TradeRecord(ticket, symbol, action, volume, sent.value.price, now, sl, tp,
                                                  BotName(bot), TradeLedger.Open, None, None, None, None, None)]
  {
    if CanOpen(st, symbol, now, feed, bot, cfg) != Ok || sent.None? then (None, st, trades)
    else
      var res := sent.value;
      var pos := TrackedPosition(symbol, action, volume, res.price, now, sl, tp, now + 60 * cfg.holdMinutes);
      var st' := OrderState(st.active[res.ticket := pos], st.lastEntry[symbol := now],
                            st.consecutive[symbol := CountFor(st, symbol) + 1]);
      var req := TradeLedger.OpenRequest(res.ticket, symbol, action, volume, res.price, Some(now),
                                         Some(sl), Some(tp), Some(BotName(bot)));
      (sent, st', trades + [TradeLedger.OpenRecord(req, now)])
  }

  /** An entry starts the cooldown: right after a fill the same symbol is refused
      until 60 seconds per minute of wait have passed, whatever the market does. */
  lemma NoReentryDuringCooldown(st: OrderState, trades: seq<TradeLedger.TradeRecord>, symbol: string, action: Action,
                                volume: real, sl: real, tp: real, feed: Signals.Feed, now: int, bot: BotType,
                                cfg: OrderConfig, sent: Option<SendResult>, later: int, feed2: Signals.Feed)
    requires Execute(st, trades, symbol, action, volume, sl, tp, feed, now, bot, cfg, sent).0.Some?
    requires now <= later < now + 60 * MinWaitMinutes(cfg)
    ensures CanOpen(Execute(st, trades, symbol, action, volume, sl, tp, feed, now, bot, cfg, sent).1,
                    symbol, later, feed2, bot, cfg) != Ok
  {
  }

  /** The reasons `check_exit_conditions` gives. */
  datatype ExitCheck = NotTracked | HoldNotComplete | NoExitData | StopLossExit | TakeProfitExit

  predicate ShouldClose(e: ExitCheck) {
    e == StopLossExit || e == TakeProfitExit
  }

  function ExitReason(e: ExitCheck): string {
    match e
    case NotTracked => "Position not tracked"
    case HoldNotComplete => "Hold period not complete"
    case NoExitData => "Cannot retrieve M5 data"
    case StopLossExit => "Purple line break (Stop Loss)"
    case TakeProfitExit => "Hold period complete (Take Profit)"
  }

  /** The purple line is broken against a position: a SELL above it, a BUY below it. */
  predicate BrokenAgainst(action: Action, price: real, line: real) {
    if action == Sell then price > line else price < line
  }

  /** `check_exit_conditions`, with `market` giving the terminal's data per symbol. */
  function CheckExit(st: OrderState, ticket: int, now: int, market: string -> Signals.Feed, p: Period): (e: ExitCheck)
    ensures ticket !in st.active <==> e == NotTracked
    ensures ShouldClose(e) ==> ticket in st.active && now >= st.active[ticket].holdUntil
    ensures e == HoldNotComplete <==> ticket in st.active && now < st.active[ticket].holdUntil
    ensures e == StopLossExit <==>
      && ticket in st.active && now >= st.active[ticket].holdUntil
      && var pos := M5Position(market(st.active[ticket].symbol), p);
         pos.Some? && BrokenAgainst(st.active[ticket].action, pos.value.0, pos.value.1)
    ensures e == TakeProfitExit <==>
      && ticket in st.active && now >= st.active[ticket].holdUntil
      && var pos := M5Position(market(st.active[ticket].symbol), p);
         pos.Some? && !BrokenAgainst(st.active[ticket].action, pos.value.0, pos.value.1)
    ensures e == NoExitData <==>
      ticket in st.active && now >= st.active[ticket].holdUntil && M5Position(market(st.active[ticket].symbol), p).None?
  {
    if ticket !in st.active then NotTracked
    else
      var position := st.active[ticket];
      if now < position.holdUntil then HoldNotComplete
      else
        match M5Position(market(position.symbol), p)
        case None => NoExitData
        case Some((price, line)) => if BrokenAgainst(position.action, price, line) then StopLossExit else TakeProfitExit
  }

  /** `needle in haystack` on strings. */
  predicate Contains(haystack: string, needle: string) {
    exists i :: 0 <= i <= |haystack| - |needle| && OccursAt(haystack, needle, i)
  }

  predicate OccursAt(haystack: string, needle: string, i: int) {
    0 <= i <= |haystack| - |needle| && haystack[i..i + |needle|] == needle
  }

  /** A string without a capital S cannot contain "Stop Loss". */
  lemma NoStopLossWithoutS(s: string)
    requires forall i :: 0 <= i < |s| ==> s[i] != 'S'
    ensures !Contains(s, "Stop Loss")
  {
    forall i | 0 <= i <= |s| - 9
      ensures !OccursAt(s, "Stop Loss", i)
    {
      assert s[i..i + 9][0] == s[i];
    }
  }

  /** Only the stop-loss exit reason resets the consecutive-order counter. */
  lemma OnlyStopLossReasonResets()
    ensures Contains(ExitReason(StopLossExit), "Stop Loss")
    ensures !Contains(ExitReason(TakeProfitExit), "Stop Loss")
  {
    assert OccursAt(ExitReason(StopLossExit), "Stop Loss", 19);
    NoStopLossWithoutS(ExitReason(TakeProfitExit));
  }

  /** How `close_position` reads the exit price: the bid for a SELL (which fails
      when there is no quote), the ask for a BUY, or nothing. */
  datatype PriceLookup = LookupFailed | ExitPrice(price: Option<real>)

  function LookupExitPrice(action: Action, tick: Option<Signals.Quote>): (r: PriceLookup)
    ensures r == LookupFailed <==> action == Sell && tick.None?
    ensures r.ExitPrice? && tick.Some? ==> r.price == Some(Signals.SidePrice(tick.value, action))
  {
    if action == Sell then (if tick.Some? then ExitPrice(Some(tick.value.bid)) else LookupFailed)
    else (if tick.Some? then ExitPrice(Some(tick.value.ask)) else ExitPrice(None))
  }

  /** The simplified P/L estimate: the price move in the trade's favour times
      volume times 100000 times 0.0001, or 0.0 when a price is missing or zero. */
  function EstimatePnl(position: TrackedPosition, exit: Option<real>): (pnl: real)
    ensures exit.None? || position.entryPrice == 0.0 ==> pnl == 0.0
    ensures exit.Some? && exit.value != 0.0 && position.entryPrice != 0.0 && position.volume > 0.0 ==>
      (pnl > 0.0 <==> if position.action == Sell then exit.value < position.entryPrice else exit.value > position.entryPrice)
  {
    if exit.Some? && exit.value != 0.0 && position.entryPrice != 0.0 then
      var move := if position.action == Sell then position.entryPrice - exit.value else exit.value - position.entryPrice;
      PnlOfMove(move, position.volume)
    else 0.0
  }

  /** `move * volume * 100000 * 0.0001`, positive exactly when both factors share a strict sign. */
  function PnlOfMove(move: real, volume: real): (g: real)
    ensures volume > 0.0 ==> (g > 0.0 <==> move > 0.0)
  {
    ProductSign(move, volume);
    move * volume * 100000.0 * 0.0001
  }

  lemma ProductSign(a: real, b: real)
    ensures b > 0.0 ==> (a * b > 0.0 <==> a > 0.0)
  {
    if b > 0.0 {
      if a > 0.0 {
        assert a * b > 0.0 * b;
      } else {
        assert a * b <= 0.0 * b;
      }
    }
  }

  /** `close_position`. A SELL without a quote fails before the broker is asked;
      otherwise the broker's answer is returned, and only a successful close of a
      tracked ticket changes the state: the ticket is dropped, its ledger record is
      closed, and a reason containing "Stop Loss" zeroes the symbol's counter. */
  function Close(st: OrderState, trades: seq<TradeLedger.TradeRecord>, ticket: int, reason: string,
                 market: string -> Signals.Feed, brokerOk: bool, balance: Option<real>, now: int)
    : (r: (bool, OrderState, seq<TradeLedger.TradeRecord>))
    ensures !r.0 ==> r.1 == st && r.2 == trades
    ensures r.0 <==> brokerOk && !(ticket in st.active && LookupExitPrice(st.active[ticket].action, market(st.active[ticket].symbol).tick).LookupFailed?)
    ensures ticket !in st.active ==> r.1 == st && r.2 == trades
    ensures r.0 && ticket in st.active ==>
      var (symbol, st') := (st.active[ticket].symbol, r.1);
      && st'.active == st.active - {ticket}
      && st'.lastEntry == st.lastEntry
      && (Contains(reason, "Stop Loss") ==> st'.consecutive == st.consecutive[symbol := 0])
      && (!Contains(reason, "Stop Loss") ==> st'.consecutive == st.consecutive)
      && (var price := LookupExitPrice(st.active[ticket].action, market(symbol).tick).price;
          r.2 == TradeLedger.CloseTrade(trades, ticket,
                   TradeLedger.CloseRequest(price, Some(now), Some(reason), Some(EstimatePnl(st.active[ticket], price)),
                                            Some(TradeLedger.GetOr(balance, 0.0))), now))
      && (TradeLedger.FirstOpen(trades, ticket).Some? ==>
            var i := TradeLedger.FirstOpen(trades, ticket).value;
            r.2[i].status == TradeLedger.Closed && r.2[i].exitReason == Some(reason))
  {
    var position := if ticket in st.active then Some(st.active[ticket]) else None;
    var lookup := if position.Some? then LookupExitPrice(position.value.action, market(position.value.symbol).tick)
                  else ExitPrice(None);
    if lookup.LookupFailed? || !brokerOk then (false, st, trades)
    else if position.None? then (true, st, trades)
    else
      var pos := position.value;
      var req := TradeLedger.CloseRequest(lookup.price, Some(now), Some(reason),
                                          Some(EstimatePnl(pos, lookup.price)), Some(TradeLedger.GetOr(balance, 0.0)));
      var counters := if Contains(reason, "Stop Loss") then st.consecutive[pos.symbol := 0] else st.consecutive;
      (true, OrderState(st.active - {ticket}, st.lastEntry, counters), TradeLedger.CloseTrade(trades, ticket, req, now))
  }

  /** The first pass of `manage_positions`: the tickets of the snapshot whose exit
      check says close, with their reasons, all decided on the same state. */
  function ToClose(st: OrderState, tickets: seq<int>, now: int, market: string -> Signals.Feed, p: Period)
    : (r: seq<(int, string)>)
    ensures |r| <= |tickets|
    ensures forall k :: 0 <= k < |r| ==> r[k].0 in st.active && now >= st.active[r[k].0].holdUntil
  {
    if tickets == [] then []
    else
      var e := CheckExit(st, Last(tickets), now, market, p);
      ToClose(st, tickets[..|tickets| - 1], now, market, p) + (if ShouldClose(e) then [(Last(tickets), ExitReason(e))] else [])
  }

  /** The exit check of ticket `x.0` says close, for reason `x.1`. */
  predicate ExitChosen(st: OrderState, x: (int, string), now: int, market: string -> Signals.Feed, p: Period) {
    var e := CheckExit(st, x.0, now, market, p);
    ShouldClose(e) && x.1 == ExitReason(e)
  }

  /** The first pass picks exactly the snapshot's tickets whose exit check says
      close, each with its check's reason. */
  lemma {:induction false} ToCloseMembers(st: OrderState, tickets: seq<int>, now: int, market: string -> Signals.Feed, p: Period)
    ensures forall x :: x in ToClose(st, tickets, now, market, p) <==> x.0 in tickets && ExitChosen(st, x, now, market, p)
  {
    if tickets != [] {
      var init := tickets[..|tickets| - 1];
      ToCloseMembers(st, init, now, market, p);
      assert tickets == init + [Last(tickets)];
    }
  }

  /** The second pass of `manage_positions`: the closes, one after the other. */
  function CloseAll(st: OrderState, trades: seq<TradeLedger.TradeRecord>, closes: seq<(int, string)>,
                    market: string -> Signals.Feed, brokerOk: int -> bool, balance: int -> Option<real>, now: int)
    : (r: (OrderState, seq<TradeLedger.TradeRecord>))
    ensures r.0.active.Keys <= st.active.Keys
    ensures |r.1| == |trades|
    decreases |closes|
  {
    if closes == [] then (st, trades)
    else
      var (t, reason) := closes[0];
      var (_, st', trades') := Close(st, trades, t, reason, market, brokerOk(t), balance(t), now);
      CloseAll(st', trades', closes[1..], market, brokerOk, balance, now)
  }

  /** Every tracked position still has an OPEN ledger record to be closed. */
  predicate LedgerCovers(st: OrderState, trades: seq<TradeLedger.TradeRecord>) {
    forall t :: t in st.active ==> TradeLedger.FirstOpen(trades, t).Some?
  }

  /** No symbol's counter is negative or above the cap (or above 0 when the cap is not positive). */
  predicate CountersBounded(st: OrderState, cfg: OrderConfig) {
    forall s :: s in st.consecutive ==> 0 <= st.consecutive[s] <= (if cfg.maxConsecutiveOrders > 0 then cfg.maxConsecutiveOrders else 0)
  }

  lemma FirstOpenAppend(trades: seq<TradeLedger.TradeRecord>, rec: TradeLedger.TradeRecord, t: int)
    requires TradeLedger.FirstOpen(trades, t).Some?
    ensures TradeLedger.FirstOpen(trades + [rec], t).Some?
  {
    var i := TradeLedger.FirstOpen(trades, t).value;
    assert TradeLedger.IsOpenFor((trades + [rec])[i], t);
  }

  /** Closing one ticket's record leaves every other ticket's OPEN record in place. */
  lemma FirstOpenAfterClose(trades: seq<TradeLedger.TradeRecord>, ticket: int, req: TradeLedger.CloseRequest, now: int, t: int)
    requires t != ticket && TradeLedger.FirstOpen(trades, t).Some?
    ensures TradeLedger.FirstOpen(TradeLedger.CloseTrade(trades, ticket, req, now), t).Some?
  {
    var u := TradeLedger.CloseTrade(trades, ticket, req, now);
    var i := TradeLedger.FirstOpen(trades, t).value;
    assert u[i] == trades[i] by {
      if TradeLedger.FirstOpen(trades, ticket).Some? {
        assert TradeLedger.FirstOpen(trades, ticket).value != i;
      }
    }
  }

  /** An execution keeps every tracked position backed by an OPEN record and keeps the counters in bounds. */
  lemma ExecuteKeepsInvariants(st: OrderState, trades: seq<TradeLedger.TradeRecord>, symbol: string, action: Action,
                               volume: real, sl: real, tp: real, feed: Signals.Feed, now: int, bot: BotType,
                               cfg: OrderConfig, sent: Option<SendResult>)
    requires LedgerCovers(st, trades) && CountersBounded(st, cfg)
    ensures var r := Execute(st, trades, symbol, action, volume, sl, tp, feed, now, bot, cfg, sent);
      LedgerCovers(r.1, r.2) && CountersBounded(r.1, cfg)
  {
    var r := Execute(st, trades, symbol, action, volume, sl, tp, feed, now, bot, cfg, sent);
    if r.0.Some? {
      var ticket := sent.value.ticket;
      forall t | t in r.1.active
        ensures TradeLedger.FirstOpen(r.2, t).Some?
      {
        if t == ticket {
          assert TradeLedger.IsOpenFor(r.2[|trades|], t);
        } else {
          assert r.2 == trades + [r.2[|trades|]];
          FirstOpenAppend(trades, r.2[|trades|], t);
        }
      }
      assert CountFor(st, symbol) < cfg.maxConsecutiveOrders;
    }
  }

  /** A close keeps every remaining tracked position backed by an OPEN record and keeps the counters in bounds. */
  lemma CloseKeepsInvariants(st: OrderState, trades: seq<TradeLedger.TradeRecord>, ticket: int, reason: string,
                             market: string -> Signals.Feed, brokerOk: bool, balance: Option<real>, now: int, cfg: OrderConfig)
    requires LedgerCovers(st, trades) && CountersBounded(st, cfg)
    ensures var r := Close(st, trades, ticket, reason, market, brokerOk, balance, now);
      LedgerCovers(r.1, r.2) && CountersBounded(r.1, cfg)
  {
    var r := Close(st, trades, ticket, reason, market, brokerOk, balance, now);
    if r.0 && ticket in st.active {
      var pos := st.active[ticket];
      var lookup := LookupExitPrice(pos.action, market(pos.symbol).tick);
      var req := TradeLedger.CloseRequest(lookup.price, Some(now), Some(reason),
                                          Some(EstimatePnl(pos, lookup.price)), Some(TradeLedger.GetOr(balance, 0.0)));
      assert r.2 == TradeLedger.CloseTrade(trades, ticket, req, now);
      forall t | t in r.1.active
        ensures TradeLedger.FirstOpen(r.2, t).Some?
      {
        FirstOpenAfterClose(trades, ticket, req, now, t);
      }
    }
  }

  /** Both invariants survive a whole `manage_positions` pass. */
  lemma {:induction false} CloseAllKeepsInvariants(st: OrderState, trades: seq<TradeLedger.TradeRecord>, closes: seq<(int, string)>,
                                                    market: string -> Signals.Feed, brokerOk: int -> bool,
                                                    balance: int -> Option<real>, now: int, cfg: OrderConfig)
    requires LedgerCovers(st, trades) && CountersBounded(st, cfg)
    ensures var r := CloseAll(st, trades, closes, market, brokerOk, balance, now);
      LedgerCovers(r.0, r.1) && CountersBounded(r.0, cfg)
    decreases |closes|
  {
    if closes != [] {
      var (t, reason) := closes[0];
      CloseKeepsInvariants(st, trades, t, reason, market, brokerOk(t), balance(t), now, cfg);
      var (_, st', trades') := Close(st, trades, t, reason, market, brokerOk(t), balance(t), now);
      CloseAllKeepsInvariants(st', trades', closes[1..], market, brokerOk, balance, now, cfg);
    }
  }

  /** A ticket no exit decision names keeps its tracked position through the whole pass. */
  lemma {:induction false} CloseAllSparesOthers(st: OrderState, trades: seq<TradeLedger.TradeRecord>, closes: seq<(int, string)>,
                                                market: string -> Signals.Feed, brokerOk: int -> bool,
                                                balance: int -> Option<real>, now: int, t: int)
    requires t in st.active
    requires forall k :: 0 <= k < |closes| ==> closes[k].0 != t
    ensures var r := CloseAll(st, trades, closes, market, brokerOk, balance, now);
      t in r.0.active && r.0.active[t] == st.active[t]
    decreases |closes|
  {
    if closes != [] {
      var (u, reason) := closes[0];
      var (_, st', trades') := Close(st, trades, u, reason, market, brokerOk(u), balance(u), now);
      CloseAllSparesOthers(st', trades', closes[1..], market, brokerOk, balance, now, t);
    }
  }

  /** A chosen ticket whose broker close succeeds, and whose exit price can be read,
      is no longer tracked once the pass is over. */
  lemma {:induction false} CloseAllClosesChosen(st: OrderState, trades: seq<TradeLedger.TradeRecord>, closes: seq<(int, string)>,
                                                 market: string -> Signals.Feed, brokerOk: int -> bool,
                                                 balance: int -> Option<real>, now: int, k: nat)
    requires k < |closes| && closes[k].0 in st.active && brokerOk(closes[k].0)
    requires !LookupExitPrice(st.active[closes[k].0].action, market(st.active[closes[k].0].symbol).tick).LookupFailed?
    ensures closes[k].0 !in CloseAll(st, trades, closes, market, brokerOk, balance, now).0.active
    decreases |closes|
  {
    var t := closes[k].0;
    var (u, reason) := closes[0];
    var (_, st', trades') := Close(st, trades, u, reason, market, brokerOk(u), balance(u), now);
    if k == 0 {
      assert t !in st'.active;
    } else {
      assert closes[1..][k - 1] == closes[k];
      if t in st'.active {
        CloseAllClosesChosen(st', trades', closes[1..], market, brokerOk, balance, now, k - 1);
      }
    }
  }

  /** Positions still inside their hold period are never chosen for closing. */
  lemma {:induction false} HoldingPositionsNotChosen(st: OrderState, tickets: seq<int>, now: int,
                                                      market: string -> Signals.Feed, p: Period, t: int)
    requires t in st.active && now < st.active[t].holdUntil
    ensures forall k :: 0 <= k < |ToClose(st, tickets, now, market, p)| ==> ToClose(st, tickets, now, market, p)[k].0 != t
  {
  }

  /** The object: one per bot, sharing the trade ledger. */
  class OrderManager {
    const bot: BotType
    const magic: int
    const cfg: OrderConfig
    const ledger: TradeLedger.Ledger
    var active: map<int, TrackedPosition>
    var lastEntry: map<string, int>
    var consecutive: map<string, int>

    function State(): OrderState
      reads this
    {
      OrderState(active, lastEntry, consecutive)
    }

    constructor (bot: BotType, magic: int, cfg: OrderConfig, ledger: TradeLedger.Ledger)
      ensures this.bot == bot && this.magic == magic && this.cfg == cfg && this.ledger == ledger
      ensures State() == OrderState(map[], map[], map[])
    {
      this.bot := bot;
      this.magic := magic;
      this.cfg := cfg;
      this.ledger := ledger;
      active := map[];
      lastEntry := map[];
      consecutive := map[];
    }

    method CheckPurpleLinePosition(feed: Signals.Feed) returns (g: Gate)
      ensures g == PurpleLineGate(feed, bot, cfg.purpleLineEma)
    {
      var m5 := Signals.GetBars(feed, M5, 10);
      if m5.None? {
        return NoM5Data;
      }
      var price := Last(m5.value).close;
      var line := Last(PurpleLine(m5.value, cfg.purpleLineEma));
      if bot == Pain {
        if price >= line {
          return PriceAboveLine;
        }
      } else {
        if price <= line {
          return PriceBelowLine;
        }
      }
      return Ok;
    }

    method CanOpenNewOrder(symbol: string, now: int, feed: Signals.Feed) returns (g: Gate)
      ensures g == CanOpen(State(), symbol, now, feed, bot, cfg)
    {
      var count := if symbol in consecutive then consecutive[symbol] else 0;
      if count >= cfg.maxConsecutiveOrders {
        return MaxConsecutive(count);
      }
      if symbol in lastEntry {
        var minutesSinceLast := ElapsedMinutes(now, lastEntry[symbol]);
        var minWait := MinWaitMinutes(cfg);
        if minutesSinceLast < minWait as real {
          return Waiting(minutesSinceLast, minWait);
        }
      }
      g := CheckPurpleLinePosition(feed);
    }

    method ExecuteOrder(symbol: string, action: Action, volume: real, sl: real, tp: real, feed: Signals.Feed,
                        now: int, sent: Option<SendResult>) returns (r: Option<SendResult>)
      modifies this, ledger
      ensures (r, State(), ledger.trades) ==
              Execute(old(State()), old(ledger.trades), symbol, action, volume, sl, tp, feed, now, bot, cfg, sent)
    {
      var g := CanOpenNewOrder(symbol, now, feed);
      if g != Ok || sent.None? {
        return None;
      }
      var res := sent.value;
      lastEntry := lastEntry[symbol := now];
      consecutive := consecutive[symbol := (if symbol in consecutive then consecutive[symbol] else 0) + 1];
      active := active[res.ticket := TrackedPosition(symbol, action, volume, res.price, now, sl, tp, now + 60 * cfg.holdMinutes)];
      ledger.RecordTradeOpen(TradeLedger.OpenRequest(res.ticket, symbol, action, volume, res.price, Some(now),
                                                      Some(sl), Some(tp), Some(BotName(bot))), now);
      return sent;
    }

    method CheckExitConditions(ticket: int, now: int, market: string -> Signals.Feed) returns (e: ExitCheck)
      ensures e == CheckExit(State(), ticket, now, market, cfg.purpleLineEma)
    {
      if ticket !in active {
        return NotTracked;
      }
      var position := active[ticket];
      if now < position.holdUntil {
        return HoldNotComplete;
      }
      var m5 := M5Position(market(position.symbol), cfg.purpleLineEma);
      if m5.None? {
        return NoExitData;
      }
      if BrokenAgainst(position.action, m5.value.0, m5.value.1) {
        return StopLossExit;
      }
      return TakeProfitExit;
    }

    method ClosePosition(ticket: int, reason: string, market: string -> Signals.Feed, brokerOk: bool,
                         balance: Option<real>, now: int) returns (success: bool)
      modifies this, ledger
      ensures (success, State(), ledger.trades) ==
              Close(old(State()), old(ledger.trades), ticket, reason, market, brokerOk, balance, now)
    {
      var exitPrice: Option<real> := None;
      if ticket in active {
        var lookup := LookupExitPrice(active[ticket].action, market(active[ticket].symbol).tick);
        if lookup.LookupFailed? {
          return false;
        }
        exitPrice := lookup.price;
      }
      success := brokerOk;
      if success && ticket in active {
        var position := active[ticket];
        var pnl := EstimatePnl(position, exitPrice);
        ledger.RecordTradeClose(ticket, TradeLedger.CloseRequest(exitPrice, Some(now), Some(reason), Some(pnl),
                                                                  Some(TradeLedger.GetOr(balance, 0.0))), now);
        active := active - {ticket};
        if Contains(reason, "Stop Loss") {
          consecutive := consecutive[position.symbol := 0];
        }
      }
    }

    /** Decides on a snapshot of the tickets, then closes the chosen ones in order;
        `tickets` is the dictionary's key list. */
    method ManagePositions(tickets: seq<int>, now: int, market: string -> Signals.Feed, brokerOk: int -> bool,
                           balance: int -> Option<real>)
      requires forall t :: t in tickets <==> t in active
      modifies this, ledger
      ensures (State(), ledger.trades) ==
              CloseAll(old(State()), old(ledger.trades), ToClose(old(State()), tickets, now, market, cfg.purpleLineEma),
                       market, brokerOk, balance, now)
    {
      var toClose := CollectExits(tickets, now, market);
      CloseEach(toClose, now, market, brokerOk, balance);
    }

    /** The first pass: the exit decisions, taken without changing anything. */
    method CollectExits(tickets: seq<int>, now: int, market: string -> Signals.Feed) returns (toClose: seq<(int, string)>)
      ensures toClose == ToClose(State(), tickets, now, market, cfg.purpleLineEma)
    {
      toClose := [];
      var i := 0;
      while i < |tickets|
        invariant 0 <= i <= |tickets|
        invariant toClose == ToClose(State(), tickets[..i], now, market, cfg.purpleLineEma)
      {
        var e := CheckExitConditions(tickets[i], now, market);
        if ShouldClose(e) {
          toClose := toClose + [(tickets[i], ExitReason(e))];
        }
        assert tickets[..i + 1][..i] == tickets[..i];
        i := i + 1;
      }
      assert tickets[..i] == tickets;
    }

    /** The second pass: the closes, in the order they were chosen. */
    method CloseEach(toClose: seq<(int, string)>, now: int, market: string -> Signals.Feed, brokerOk: int -> bool,
                     balance: int -> Option<real>)
      modifies this, ledger
      ensures (State(), ledger.trades) == CloseAll(old(State()), old(ledger.trades), toClose, market, brokerOk, balance, now)
    {
      var j := 0;
      while j < |toClose|
        invariant 0 <= j <= |toClose|
        invariant CloseAll(old(State()), old(ledger.trades), toClose, market, brokerOk, balance, now)
               == CloseAll(State(), ledger.trades, toClose[j..], market, brokerOk, balance, now)
      {
        var (t, reason) := toClose[j];
        var _ := ClosePosition(t, reason, market, brokerOk(t), balance(t), now);
        assert toClose[j..][1..] == toClose[j + 1..];
        j := j + 1;
      }
    }

    /** Clears only the consecutive-order counters. */
    method ResetDailyCounters()
      modifies this
      ensures State() == old(State()).(consecutive := map[])
    {
      consecutive := map[];
    }
  }
}
