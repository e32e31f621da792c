/** The backtest simulator of backtesting_engine.py (run_backtest from line 53 on).

    The simulator walks the bars of a price history with a single position slot. On every
    bar it first manages an open position (stop loss, then take profit, then a signal
    exit), then opens a position on the lagged signal when the slot is free. At the end of
    the period an open position is closed at the last close, and summary statistics are
    computed from the trade log.

    The price download and the indicator columns are not part of this model: the bars
    (high, low, close) and the per-bar signal strings are inputs, and bar indices stand in
    for dates.
 */
module Backtest {
  import opened Common
  import Signals

  datatype Bar = Bar(high: real, low: real, close: real)

  /** positie_type: "geen", "long" or "short". */
  datatype Side = Flat | Long | Short

  function SideText(s: Side): string
  {
    match s
    case Flat => "geen"
    case Long => "long"
    case Short => "short"
  }

  /** The 'reden' of a trade. An open trade carries its opening reason until it closes. */
  datatype Reason =
    | OpenLong | OpenShort
    | StopLossLong | TakeProfitLong | SellSignalLong
    | StopLossShort | TakeProfitShort | BuySignalShort
    | EndOfPeriod(side: Side)

  function ReasonText(r: Reason): string
  {
    match r
    case OpenLong => "Koopsignaal (Open Long)"
    case OpenShort => "Verkoopsignaal (Open Short)"
    case StopLossLong => "Stop Loss (Long)"
    case TakeProfitLong => "Take Profit (Long)"
    case SellSignalLong => "Verkoopsignaal (Long sluiten)"
    case StopLossShort => "Stop Loss (Short)"
    case TakeProfitShort => "Take Profit (Short)"
    case BuySignalShort => "Koopsignaal (Short sluiten)"
    case EndOfPeriod(s) => "Einde Periode (" + SideText(s) + ")"
  }

  /** One entry of 'transacties'. Exit price, exit bar and result are None while open. */
  datatype Trade = Trade(
    entryBar: nat,             // 'datum_in'
    entryPrice: real,          // 'aankoop_prijs'
    exitPrice: Option<real>,   // 'verkoop_prijs'
    exitBar: Option<nat>,      // 'datum_uit'
    reason: Reason,            // 'reden'
    result: Option<real>,      // 'resultaat'
    side: Side)                // 'positie_type'

  predicate Closed(t: Trade)
  {
    t.exitPrice.Some? && t.exitBar.Some? && t.result.Some?
  }

  predicate Open(t: Trade)
  {
    t.exitPrice.None? && t.exitBar.None? && t.result.None?
  }

  /** The simulation parameters; the signal thresholds only shape the signal strings. */
  datatype Params = Params(
    startCapital: real,   // start_kapitaal
    cost: real,           // transactie_kosten
    delay: nat,           // signaal_vertraging
    stopLoss: real,       // stop_loss_pct
    takeProfit: real)     // take_profit_pct

  /** The source's defaults: 10000, 5, 1, 0.05 and 0.10. */
  const DefaultParams := Params(10000.0, 5.0, 1, 0.05, 0.10)

  /** The loop variables of the simulation. */
  datatype SimState = SimState(positions: int, side: Side, capital: real, trades: seq<Trade>)

  function Last(trades: seq<Trade>): Trade
    requires |trades| > 0
  {
    trades[|trades| - 1]
  }

  /** One position slot: `posities` is 0 or 1, a side is set exactly when it is 1, the open
      trade is the last log entry, and every other entry is closed. */
  ghost predicate Valid(st: SimState)
  {
    0 <= st.positions <= 1
    && (st.positions == 1 <==> st.side != Flat)
    && (st.positions == 1 ==> |st.trades| > 0 && Open(Last(st.trades)) && Last(st.trades).side == st.side)
    && (forall j :: 0 <= j < |st.trades| - st.positions ==> Closed(st.trades[j]))
  }

  function Initial(p: Params): (st: SimState)
    ensures Valid(st) && |st.trades| == 0
  {
    SimState(0, Flat, p.startCapital, [])
  }

  /** The first bar the loop visits: `max(signaal_vertraging, 1)`. */
  function Start(p: Params): nat
  {
    if p.delay > 1 then p.delay else 1
  }

  /** 'Signaal_met_vertraging' at bar i: the signal of bar i - delay. */
  function Lagged(signals: seq<string>, p: Params, i: nat): string
    requires p.delay <= i < |signals|
  {
    signals[i - p.delay]
  }

  // ---------------------------------------------------------------------------
  // One bar
  // ---------------------------------------------------------------------------

  /** Closes the open (last) trade at `exit` on bar i: the capital grows by the exit price
      minus the cost, and the trade records the exit and its result. */
  function CloseLast(st: SimState, i: nat, exit: real, reason: Reason, result: real, p: Params): (r: SimState)
    requires Valid(st) && st.positions == 1
    ensures Valid(r) && r.positions == 0 && |r.trades| == |st.trades|
  {
    var n := |st.trades|;
    var t := st.trades[n - 1].(exitPrice := Some(exit), exitBar := Some(i), reason := reason, result := Some(result));
    SimState(0, Flat, st.capital + (exit - p.cost), st.trades[n - 1 := t])
  }

  /** Position management: for a long, stop loss at entry * (1 - sl) on the low, then take
      profit at entry * (1 + tp) on the high, then a "VERKOOP" signal at the close; a short
      mirrors this with a "KOOP" signal. */
  function Manage(st: SimState, i: nat, bar: Bar, signal: string, p: Params): (r: SimState)
    requires Valid(st)
    ensures Valid(r)
    ensures |r.trades| == |st.trades|
    ensures forall j :: 0 <= j < |st.trades| - st.positions ==> r.trades[j] == st.trades[j]
  {
    if st.positions > 0 then
      var entry := Last(st.trades).entryPrice;
      if st.side == Long then
        if bar.low <= entry * (1.0 - p.stopLoss) then
          var exit := entry * (1.0 - p.stopLoss);
          CloseLast(st, i, exit, StopLossLong, exit - entry - p.cost, p)
        else if bar.high >= entry * (1.0 + p.takeProfit) then
          var exit := entry * (1.0 + p.takeProfit);
          CloseLast(st, i, exit, TakeProfitLong, exit - entry - p.cost, p)
        else if Contains(signal, "VERKOOP") then
          CloseLast(st, i, bar.close, SellSignalLong, bar.close - entry - p.cost, p)
        else st
      else if st.side == Short then
        if bar.high >= entry * (1.0 + p.stopLoss) then
          var exit := entry * (1.0 + p.stopLoss);
          CloseLast(st, i, exit, StopLossShort, entry - exit - p.cost, p)
        else if bar.low <= entry * (1.0 - p.takeProfit) then
          var exit := entry * (1.0 - p.takeProfit);
          CloseLast(st, i, exit, TakeProfitShort, entry - exit - p.cost, p)
        else if Contains(signal, "KOOP") then
          CloseLast(st, i, bar.close, BuySignalShort, entry - bar.close - p.cost, p)
        else st
      else st
    else st
  }

  /** With a free slot, a signal containing "KOOP" opens a long at the close, and otherwise
      one containing "VERKOOP" opens a short; either costs one transaction fee. */
  function OpenOnSignal(st: SimState, i: nat, bar: Bar, signal: string, p: Params): (r: SimState)
    requires Valid(st)
    ensures Valid(r)
    ensures st.trades <= r.trades && |r.trades| <= |st.trades| + 1
  {
    if st.positions == 0 then
      if Contains(signal, "KOOP") then
        var t := Trade(i, bar.close, None, None, OpenLong, None, Long);
        SimState(1, Long, st.capital - p.cost, st.trades + [t])
      else if Contains(signal, "VERKOOP") then
        var t := Trade(i, bar.close, None, None, OpenShort, None, Short);
        SimState(1, Short, st.capital - p.cost, st.trades + [t])
      else st
    else st
  }

  function Step(st: SimState, i: nat, bar: Bar, signal: string, p: Params): (r: SimState)
    requires Valid(st)
    ensures Valid(r)
    ensures |st.trades| <= |r.trades| <= |st.trades| + 1
    ensures forall j :: 0 <= j < |st.trades| - st.positions ==> r.trades[j] == st.trades[j]
  {
    OpenOnSignal(Manage(st, i, bar, signal, p), i, bar, signal, p)
  }

  /** The loop variables after the iterations for bars Start(p) .. k - 1. */
  function SimUpTo(bars: seq<Bar>, signals: seq<string>, p: Params, k: nat): (st: SimState)
    requires |signals| == |bars| && k <= |bars|
    ensures Valid(st)
  {
    if k <= Start(p) then Initial(p)
    else Step(SimUpTo(bars, signals, p, k - 1), k - 1, bars[k - 1], Lagged(signals, p, k - 1), p)
  }

  /** The end-of-period block: an open position is closed at the last close, its result is
      computed by side and added to the capital. */
  function CloseAtEnd(st: SimState, bars: seq<Bar>, p: Params): (r: SimState)
    requires Valid(st) && |bars| > 0
    ensures Valid(r) && r.positions == 0 && r.side == Flat
  {
    if st.positions > 0 then
      var n := |st.trades|;
      var t := st.trades[n - 1];
      var exit := bars[|bars| - 1].close;
      var result := if st.side == Long then exit - t.entryPrice - p.cost else t.entryPrice - exit - p.cost;
      var closed := t.(exitPrice := Some(exit), exitBar := Some(|bars| - 1), reason := EndOfPeriod(st.side), result := Some(result));
      SimState(0, Flat, st.capital + result, st.trades[n - 1 := closed])
    else st
  }

  // ---------------------------------------------------------------------------
  // Statistics
  // ---------------------------------------------------------------------------

  /** The 'resultaat' column as pandas sums it: a missing result is skipped. */
  function ResultOr0(t: Trade): real
  {
    if t.result.Some? then t.result.value else 0.0
  }

  predicate Winner(t: Trade)
  {
    t.result.Some? && t.result.value > 0.0
  }

  predicate Loser(t: Trade)
  {
    t.result.Some? && t.result.value < 0.0
  }

  function TotalResult(ts: seq<Trade>): real
  {
    if |ts| == 0 then 0.0 else TotalResult(ts[..|ts| - 1]) + ResultOr0(ts[|ts| - 1])
  }

  function CountWinners(ts: seq<Trade>): (n: nat)
    ensures n <= |ts|
  {
    if |ts| == 0 then 0 else CountWinners(ts[..|ts| - 1]) + (if Winner(ts[|ts| - 1]) then 1 else 0)
  }

  function CountLosers(ts: seq<Trade>): (n: nat)
    ensures n <= |ts|
  {
    if |ts| == 0 then 0 else CountLosers(ts[..|ts| - 1]) + (if Loser(ts[|ts| - 1]) then 1 else 0)
  }

  function SumWinners(ts: seq<Trade>): real
  {
    if |ts| == 0 then 0.0
    else SumWinners(ts[..|ts| - 1]) + (if Winner(ts[|ts| - 1]) then ts[|ts| - 1].result.value else 0.0)
  }

  function SumLosers(ts: seq<Trade>): real
  {
    if |ts| == 0 then 0.0
    else SumLosers(ts[..|ts| - 1]) + (if Loser(ts[|ts| - 1]) then ts[|ts| - 1].result.value else 0.0)
  }

  /** The result dictionary. A NaN average (the mean of an empty selection) is None. */
  datatype Summary = Summary(
    startCapital: real, endValue: real, returnPct: real, tradeCount: nat, totalResult: real,
    winPct: real, avgWin: real, avgLoss: Option<real>, trades: seq<Trade>)

  /** Lines 217-234: win percentage over all trades; average win over the positive results
      when there are winners; average loss over the negative results, guarded only by the
      number of non-winners. */
  function Summarize(st: SimState, p: Params): (s: Summary)
    requires p.startCapital != 0.0
    ensures s.startCapital == p.startCapital && s.endValue == st.capital
    ensures s.trades == st.trades && s.tradeCount == |st.trades|
    ensures s.startCapital + s.returnPct * s.startCapital / 100.0 == s.endValue
    ensures |st.trades| == 0 ==>
      s.totalResult == 0.0 && s.winPct == 0.0 && s.avgWin == 0.0 && s.avgLoss == Some(0.0)
  {
    var ts := st.trades;
    var n := |ts|;
    var winners := CountWinners(ts);
    var losers := CountLosers(ts);
    Summary(
      p.startCapital, st.capital, (st.capital - p.startCapital) / p.startCapital * 100.0, n,
      if n > 0 then TotalResult(ts) else 0.0,
      if n > 0 then (winners as real) / (n as real) * 100.0 else 0.0,
      if n > 0 && winners > 0 then SumWinners(ts) / (winners as real) else 0.0,
      if n > 0 && n - winners > 0 then
        (if losers > 0 then Some(SumLosers(ts) / (losers as real)) else None)
      else Some(0.0),
      ts)
  }

  datatype Outcome = Failure(message: string) | Success(summary: Summary)

  const NoDataMessage := "Geen data gevonden voor deze ticker en periode."

  /** run_backtest on given bars and per-bar signal strings. */
  function Backtest(bars: seq<Bar>, signals: seq<string>, p: Params): (o: Outcome)
    requires |signals| == |bars| && p.startCapital != 0.0
    ensures o.Failure? <==> |bars| == 0
    ensures o.Failure? ==> o.message == NoDataMessage
    ensures o.Success? ==> forall j :: 0 <= j < |o.summary.trades| ==> Closed(o.summary.trades[j])
  {
    if |bars| == 0 then Failure(NoDataMessage)
    else Success(Summarize(CloseAtEnd(SimUpTo(bars, signals, p, |bars|), bars, p), p))
  }

  // ---------------------------------------------------------------------------
  // The simulation loop
  // ---------------------------------------------------------------------------

  /** The position-management block of one loop iteration, on the loop variables. */
  method ManageBar(positions0: int, side0: Side, capital0: real, trades0: seq<Trade>,
                   i: nat, bar: Bar, signal: string, p: Params)
    returns (positions: int, side: Side, capital: real, trades: seq<Trade>)
    requires Valid(SimState(positions0, side0, capital0, trades0))
    ensures SimState(positions, side, capital, trades)
            == Manage(SimState(positions0, side0, capital0, trades0), i, bar, signal, p)
  {
    positions, side, capital, trades := positions0, side0, capital0, trades0;
    if positions > 0 {
      if side == Long {
        positions, side, capital, trades := ManageLongBar(positions0, side0, capital0, trades0, i, bar, signal, p);
      } else if side == Short {
        positions, side, capital, trades := ManageShortBar(positions0, side0, capital0, trades0, i, bar, signal, p);
      }
    }
  }

  /** The block for an open long: stop loss, take profit, then the sell signal. */
  method ManageLongBar(positions0: int, side0: Side, capital0: real, trades0: seq<Trade>,
                       i: nat, bar: Bar, signal: string, p: Params)
    returns (positions: int, side: Side, capital: real, trades: seq<Trade>)
    requires Valid(SimState(positions0, side0, capital0, trades0)) && positions0 > 0 && side0 == Long
    ensures SimState(positions, side, capital, trades)
            == Manage(SimState(positions0, side0, capital0, trades0), i, bar, signal, p)
  {
    positions, side, capital, trades := positions0, side0, capital0, trades0;
    var closed := false;
    var n := |trades|;
    var entry := trades[n - 1].entryPrice;
    if bar.low <= entry * (1.0 - p.stopLoss) {
      var exit := entry * (1.0 - p.stopLoss);
      capital := capital + (exit - p.cost);
      trades := trades[n - 1 := trades[n - 1].(exitPrice := Some(exit), exitBar := Some(i),
                                               reason := StopLossLong, result := Some(exit - entry - p.cost))];
      positions, side, closed := 0, Flat, true;
    } else if bar.high >= entry * (1.0 + p.takeProfit) {
      var exit := entry * (1.0 + p.takeProfit);
      capital := capital + (exit - p.cost);
      trades := trades[n - 1 := trades[n - 1].(exitPrice := Some(exit), exitBar := Some(i),
                                               reason := TakeProfitLong, result := Some(exit - entry - p.cost))];
      positions, side, closed := 0, Flat, true;
    } else if Contains(signal, "VERKOOP") && !closed {
      capital := capital + (bar.close - p.cost);
      trades := trades[n - 1 := trades[n - 1].(exitPrice := Some(bar.close), exitBar := Some(i),
                                               reason := SellSignalLong, result := Some(bar.close - entry - p.cost))];
      positions, side, closed := 0, Flat, true;
    }
  }

  /** The block for an open short: stop loss above, take profit below, then the buy signal. */
  method ManageShortBar(positions0: int, side0: Side, capital0: real, trades0: seq<Trade>,
                        i: nat, bar: Bar, signal: string, p: Params)
    returns (positions: int, side: Side, capital: real, trades: seq<Trade>)
    requires Valid(SimState(positions0, side0, capital0, trades0)) && positions0 > 0 && side0 == Short
    ensures SimState(positions, side, capital, trades)
            == Manage(SimState(positions0, side0, capital0, trades0), i, bar, signal, p)
  {
    positions, side, capital, trades := positions0, side0, capital0, trades0;
    var closed := false;
    var n := |trades|;
    var entry := trades[n - 1].entryPrice;
    if bar.high >= entry * (1.0 + p.stopLoss) {
      var exit := entry * (1.0 + p.stopLoss);
      capital := capital + (exit - p.cost);
      trades := trades[n - 1 := trades[n - 1].(exitPrice := Some(exit), exitBar := Some(i),
                                               reason := StopLossShort, result := Some(entry - exit - p.cost))];
      positions, side, closed := 0, Flat, true;
    } else if bar.low <= entry * (1.0 - p.takeProfit) {
      var exit := entry * (1.0 - p.takeProfit);
      capital := capital + (exit - p.cost);
      trades := trades[n - 1 := trades[n - 1].(exitPrice := Some(exit), exitBar := Some(i),
                                               reason := TakeProfitShort, result := Some(entry - exit - p.cost))];
      positions, side, closed := 0, Flat, true;
    } else if Contains(signal, "KOOP") && !closed {
      capital := capital + (bar.close - p.cost);
      trades := trades[n - 1 := trades[n - 1].(exitPrice := Some(bar.close), exitBar := Some(i),
                                               reason := BuySignalShort, result := Some(entry - bar.close - p.cost))];
      positions, side, closed := 0, Flat, true;
    }
  }

  /** The opening block of one loop iteration, on the loop variables. */
  method OpenBar(positions0: int, side0: Side, capital0: real, trades0: seq<Trade>,
                 i: nat, bar: Bar, signal: string, p: Params)
    returns (positions: int, side: Side, capital: real, trades: seq<Trade>)
    requires Valid(SimState(positions0, side0, capital0, trades0))
    ensures SimState(positions, side, capital, trades)
            == OpenOnSignal(SimState(positions0, side0, capital0, trades0), i, bar, signal, p)
  {
    positions, side, capital, trades := positions0, side0, capital0, trades0;
    if positions == 0 {
      if Contains(signal, "KOOP") {
        trades := trades + [Trade(i, bar.close, None, None, OpenLong, None, Long)];
        capital := capital - p.cost;
        positions, side := 1, Long;
      } else if Contains(signal, "VERKOOP") {
        trades := trades + [Trade(i, bar.close, None, None, OpenShort, None, Short)];
        capital := capital - p.cost;
        positions, side := 1, Short;
      }
    }
  }

  lemma SimUpToNext(bars: seq<Bar>, signals: seq<string>, p: Params, i: nat)
    requires |signals| == |bars| && Start(p) <= i < |bars|
    ensures SimUpTo(bars, signals, p, i + 1)
            == Step(SimUpTo(bars, signals, p, i), i, bars[i], Lagged(signals, p, i), p)
  {
  }

  /** The end-of-period block, on the loop variables. */
  method CloseOpenAtEnd(positions0: int, side0: Side, capital0: real, trades0: seq<Trade>, bars: seq<Bar>, p: Params)
    returns (positions: int, side: Side, capital: real, trades: seq<Trade>)
    requires Valid(SimState(positions0, side0, capital0, trades0)) && |bars| > 0
    ensures SimState(positions, side, capital, trades) == CloseAtEnd(SimState(positions0, side0, capital0, trades0), bars, p)
  {
    positions, side, capital, trades := positions0, side0, capital0, trades0;
    if positions > 0 {
      var n := |trades|;
      var exit := bars[|bars| - 1].close;
      var result := if side == Long then exit - trades[n - 1].entryPrice - p.cost
                    else trades[n - 1].entryPrice - exit - p.cost;
      trades := trades[n - 1 := trades[n - 1].(exitPrice := Some(exit), exitBar := Some(|bars| - 1),
                                               reason := EndOfPeriod(side), result := Some(result))];
      capital := capital + result;
      positions, side := 0, Flat;
    }
  }

  /** run_backtest: the bar loop updates the position slot, the capital and the trade log,
      then the end-of-period close and the statistics follow. */
  method RunBacktest(bars: seq<Bar>, signals: seq<string>, p: Params) returns (o: Outcome)
    requires |signals| == |bars| && p.startCapital != 0.0
    ensures o == Backtest(bars, signals, p)
  {
    if |bars| == 0 {
      return Failure(NoDataMessage);
    }
    var positions := 0;
    var side := Flat;
    var capital := p.startCapital;
    var trades: seq<Trade> := [];
    var i := if Start(p) < |bars| then Start(p) else |bars|;
    while i < |bars|
      invariant i <= |bars| && (i < |bars| ==> Start(p) <= i)
      invariant SimState(positions, side, capital, trades) == SimUpTo(bars, signals, p, i)
    {
      var signal := signals[i - p.delay];
      SimUpToNext(bars, signals, p, i);
      positions, side, capital, trades := ManageBar(positions, side, capital, trades, i, bars[i], signal, p);
      positions, side, capital, trades := OpenBar(positions, side, capital, trades, i, bars[i], signal, p);
      i := i + 1;
    }
    positions, side, capital, trades := CloseOpenAtEnd(positions, side, capital, trades, bars, p);
    o := Success(Summarize(SimState(positions, side, capital, trades), p));
  }

  // ---------------------------------------------------------------------------
  // Only longs are ever opened
  // ---------------------------------------------------------------------------

  /** Every string containing "VERKOOP" contains "KOOP". */
  lemma VerkoopHasKoop(s: string)
    requires Contains(s, "VERKOOP")
    ensures Contains(s, "KOOP")
  {
    var i :| OccursAt(s, "VERKOOP", i);
    OccursInside(s, "VERKOOP", i, "KOOP", 3);
  }

  ghost predicate LongOnly(st: SimState)
  {
    st.side != Short && forall j :: 0 <= j < |st.trades| ==> st.trades[j].side == Long
  }

  /** The "KOOP" test comes first, so the short branch of the opening block is dead. */
  lemma StepLongOnly(st: SimState, i: nat, bar: Bar, signal: string, p: Params)
    requires Valid(st) && LongOnly(st)
    ensures LongOnly(Step(st, i, bar, signal, p))
  {
    if Contains(signal, "VERKOOP") {
      VerkoopHasKoop(signal);
    }
  }

  lemma {:induction false} SimLongOnly(bars: seq<Bar>, signals: seq<string>, p: Params, k: nat)
    requires |signals| == |bars| && k <= |bars|
    ensures LongOnly(SimUpTo(bars, signals, p, k))
  {
    if k > Start(p) {
      SimLongOnly(bars, signals, p, k - 1);
      SimStepLongOnly(bars, signals, p, k);
    }
  }

  lemma SimStepLongOnly(bars: seq<Bar>, signals: seq<string>, p: Params, k: nat)
    requires |signals| == |bars| && Start(p) < k <= |bars|
    requires LongOnly(SimUpTo(bars, signals, p, k - 1))
    ensures LongOnly(SimUpTo(bars, signals, p, k))
  {
    StepLongOnly(SimUpTo(bars, signals, p, k - 1), k - 1, bars[k - 1], Lagged(signals, p, k - 1), p);
  }

  // ---------------------------------------------------------------------------
  // Capital bookkeeping
  // ---------------------------------------------------------------------------

  /** What a trade has done to 'kapitaal' so far: the fee at opening, then on a close inside
      the loop the exit price minus a second fee, and on the end-of-period close the result. */
  function Effect(t: Trade, p: Params): real
  {
    if t.exitPrice.None? then -p.cost
    else if t.reason.EndOfPeriod? then ResultOr0(t) - p.cost
    else t.exitPrice.value - 2.0 * p.cost
  }

  function Effects(ts: seq<Trade>, p: Params): real
  {
    if |ts| == 0 then 0.0 else Effects(ts[..|ts| - 1], p) + Effect(ts[|ts| - 1], p)
  }

  ghost predicate Booked(st: SimState, p: Params)
  {
    st.capital == p.startCapital + Effects(st.trades, p)
  }

  lemma EffectsUpdateLast(ts: seq<Trade>, t: Trade, p: Params)
    requires |ts| > 0
    ensures Effects(ts[|ts| - 1 := t], p) == Effects(ts, p) - Effect(Last(ts), p) + Effect(t, p)
  {
    assert ts[|ts| - 1 := t][..|ts| - 1] == ts[..|ts| - 1];
  }

  lemma EffectsAppend(ts: seq<Trade>, t: Trade, p: Params)
    ensures Effects(ts + [t], p) == Effects(ts, p) + Effect(t, p)
  {
    assert (ts + [t])[..|ts|] == ts;
  }

  lemma CloseLastBooked(st: SimState, i: nat, exit: real, reason: Reason, result: real, p: Params)
    requires Valid(st) && st.positions == 1 && Booked(st, p) && !reason.EndOfPeriod?
    ensures Booked(CloseLast(st, i, exit, reason, result, p), p)
  {
    var n := |st.trades|;
    EffectsUpdateLast(st.trades, st.trades[n - 1].(exitPrice := Some(exit), exitBar := Some(i), reason := reason, result := Some(result)), p);
  }

  lemma ManageBooked(st: SimState, i: nat, bar: Bar, signal: string, p: Params)
    requires Valid(st) && Booked(st, p)
    ensures Booked(Manage(st, i, bar, signal, p), p)
  {
    if st.positions > 0 && Manage(st, i, bar, signal, p) != st {
      var e := Last(st.trades).entryPrice;
      if st.side == Long {
        if bar.low <= e * (1.0 - p.stopLoss) {
          CloseLastBooked(st, i, e * (1.0 - p.stopLoss), StopLossLong, e * (1.0 - p.stopLoss) - e - p.cost, p);
        } else if bar.high >= e * (1.0 + p.takeProfit) {
          CloseLastBooked(st, i, e * (1.0 + p.takeProfit), TakeProfitLong, e * (1.0 + p.takeProfit) - e - p.cost, p);
        } else {
          CloseLastBooked(st, i, bar.close, SellSignalLong, bar.close - e - p.cost, p);
        }
      } else {
        ManageShortBooked(st, i, bar, signal, p);
      }
    }
  }

  lemma ManageShortBooked(st: SimState, i: nat, bar: Bar, signal: string, p: Params)
    requires Valid(st) && Booked(st, p) && st.side == Short
    ensures Booked(Manage(st, i, bar, signal, p), p)
  {
    var e := Last(st.trades).entryPrice;
    if bar.high >= e * (1.0 + p.stopLoss) {
      CloseLastBooked(st, i, e * (1.0 + p.stopLoss), StopLossShort, e - e * (1.0 + p.stopLoss) - p.cost, p);
    } else if bar.low <= e * (1.0 - p.takeProfit) {
      CloseLastBooked(st, i, e * (1.0 - p.takeProfit), TakeProfitShort, e - e * (1.0 - p.takeProfit) - p.cost, p);
    } else if Contains(signal, "KOOP") {
      CloseLastBooked(st, i, bar.close, BuySignalShort, e - bar.close - p.cost, p);
    }
  }

  lemma OpenBooked(st: SimState, i: nat, bar: Bar, signal: string, p: Params)
    requires Valid(st) && Booked(st, p)
    ensures Booked(OpenOnSignal(st, i, bar, signal, p), p)
  {
    if st.positions == 0 {
      EffectsAppend(st.trades, Trade(i, bar.close, None, None, OpenLong, None, Long), p);
      EffectsAppend(st.trades, Trade(i, bar.close, None, None, OpenShort, None, Short), p);
    }
  }

  lemma StepBooked(st: SimState, i: nat, bar: Bar, signal: string, p: Params)
    requires Valid(st) && Booked(st, p)
    ensures Booked(Step(st, i, bar, signal, p), p)
  {
    ManageBooked(st, i, bar, signal, p);
    OpenBooked(Manage(st, i, bar, signal, p), i, bar, signal, p);
  }

  lemma {:induction false} SimBooked(bars: seq<Bar>, signals: seq<string>, p: Params, k: nat)
    requires |signals| == |bars| && k <= |bars|
    ensures Booked(SimUpTo(bars, signals, p, k), p)
  {
    if k > Start(p) {
      SimBooked(bars, signals, p, k - 1);
      StepBooked(SimUpTo(bars, signals, p, k - 1), k - 1, bars[k - 1], Lagged(signals, p, k - 1), p);
    }
  }

  lemma CloseAtEndBooked(st: SimState, bars: seq<Bar>, p: Params)
    requires Valid(st) && |bars| > 0 && Booked(st, p)
    ensures Booked(CloseAtEnd(st, bars, p), p)
  {
    if st.positions > 0 {
      var r := CloseAtEnd(st, bars, p);
      EffectsUpdateLast(st.trades, r.trades[|r.trades| - 1], p);
      assert r.trades == st.trades[|st.trades| - 1 := r.trades[|r.trades| - 1]];
    }
  }

  /** The end value is the start capital plus every trade's effect on the capital: a trade
      closed inside the loop adds its exit price, not its profit, to the capital. */
  lemma EndValueBookkeeping(bars: seq<Bar>, signals: seq<string>, p: Params)
    requires |signals| == |bars| && p.startCapital != 0.0 && |bars| > 0
    ensures var s := Backtest(bars, signals, p).summary;
            s.endValue == p.startCapital + Effects(s.trades, p)
  {
    SimBooked(bars, signals, p, |bars|);
    CloseAtEndBooked(SimUpTo(bars, signals, p, |bars|), bars, p);
  }

  // ---------------------------------------------------------------------------
  // The trade log
  // ---------------------------------------------------------------------------

  /** A trade was opened as a long at the close of a visited bar whose lagged signal
      contains "KOOP". */
  ghost predicate Opened(t: Trade, bars: seq<Bar>, signals: seq<string>, p: Params)
    requires |signals| == |bars|
  {
    t.side == Long && Start(p) <= t.entryBar < |bars|
    && t.entryPrice == bars[t.entryBar].close
    && Contains(Lagged(signals, p, t.entryBar), "KOOP")
  }

  /** Why a closed long was closed, checked against the exit bar: the stop loss first, the
      take profit only when the stop loss was not hit, the sell signal only when neither
      was, and the end-of-period close on the last bar. */
  ghost predicate ExitRule(t: Trade, bars: seq<Bar>, signals: seq<string>, p: Params)
    requires |signals| == |bars| && Closed(t) && Start(p) <= t.exitBar.value < |bars|
  {
    var x := t.exitBar.value;
    var e := t.entryPrice;
    var exit := t.exitPrice.value;
    match t.reason
    case StopLossLong =>
      t.entryBar < x && exit == e * (1.0 - p.stopLoss) && bars[x].low <= exit
    case TakeProfitLong =>
      t.entryBar < x && exit == e * (1.0 + p.takeProfit)
      && bars[x].low > e * (1.0 - p.stopLoss) && bars[x].high >= exit
    case SellSignalLong =>
      t.entryBar < x && exit == bars[x].close
      && bars[x].low > e * (1.0 - p.stopLoss) && bars[x].high < e * (1.0 + p.takeProfit)
      && Contains(Lagged(signals, p, x), "VERKOOP")
    case EndOfPeriod(side) =>
      side == Long && x == |bars| - 1 && exit == bars[|bars| - 1].close
    case _ => false
  }

  /** A trade as the log holds it after the bars before k: an open long still carries its
      opening reason; a closed one exited no earlier than it entered, by an exit rule, with
      result exit - entry - cost. */
  ghost predicate TradeOK(t: Trade, bars: seq<Bar>, signals: seq<string>, p: Params, k: nat)
    requires |signals| == |bars| && k <= |bars|
  {
    Opened(t, bars, signals, p) && t.entryBar < k
    && (Open(t) || Closed(t))
    && (Open(t) ==> t.reason == OpenLong)
    && (Closed(t) ==>
          t.entryBar <= t.exitBar.value < k
          && t.result.value == t.exitPrice.value - t.entryPrice - p.cost
          && ExitRule(t, bars, signals, p))
  }

  /** Each trade exits no later than the next one enters. */
  ghost predicate Chronological(ts: seq<Trade>)
  {
    forall j :: 0 <= j < |ts| - 1 ==> ts[j].exitBar.Some? && ts[j].exitBar.value <= ts[j + 1].entryBar
  }

  /** The log built from the front: every entry as TradeOK says, each exiting no later than
      the next enters. Stated one entry at a time so that a step of the loop, which only
      touches the last entry, is proved from the last entry alone. */
  ghost predicate LogOK(ts: seq<Trade>, bars: seq<Bar>, signals: seq<string>, p: Params, k: nat)
    requires |signals| == |bars| && k <= |bars|
    decreases |ts|
  {
    |ts| == 0
    || (LogOK(ts[..|ts| - 1], bars, signals, p, k) && TradeOK(ts[|ts| - 1], bars, signals, p, k)
        && (|ts| >= 2 ==> ts[|ts| - 2].exitBar.Some? && ts[|ts| - 2].exitBar.value <= ts[|ts| - 1].entryBar))
  }

  ghost predicate Logged(st: SimState, bars: seq<Bar>, signals: seq<string>, p: Params, k: nat)
    requires |signals| == |bars| && k <= |bars|
  {
    LogOK(st.trades, bars, signals, p, k)
  }

  /** LogOK is the log read entry by entry: each trade OK and the whole chronological. */
  lemma {:induction false} LogOKAll(ts: seq<Trade>, bars: seq<Bar>, signals: seq<string>, p: Params, k: nat)
    requires |signals| == |bars| && k <= |bars| && LogOK(ts, bars, signals, p, k)
    ensures Chronological(ts) && forall j :: 0 <= j < |ts| ==> TradeOK(ts[j], bars, signals, p, k)
    decreases |ts|
  {
    if |ts| > 0 {
      var front := ts[..|ts| - 1];
      LogOKAll(front, bars, signals, p, k);
      assert forall j :: 0 <= j < |ts| - 1 ==> ts[j] == front[j];
    }
  }

  lemma {:induction false} LogOKLater(ts: seq<Trade>, bars: seq<Bar>, signals: seq<string>, p: Params, k: nat)
    requires |signals| == |bars| && k < |bars| && LogOK(ts, bars, signals, p, k)
    ensures LogOK(ts, bars, signals, p, k + 1)
    decreases |ts|
  {
    if |ts| > 0 {
      LogOKLater(ts[..|ts| - 1], bars, signals, p, k);
      assert TradeOK(ts[|ts| - 1], bars, signals, p, k);
    }
  }

  lemma LoggedLater(st: SimState, bars: seq<Bar>, signals: seq<string>, p: Params, k: nat)
    requires |signals| == |bars| && k < |bars| && Logged(st, bars, signals, p, k)
    ensures Logged(st, bars, signals, p, k + 1)
  {
    LogOKLater(st.trades, bars, signals, p, k);
  }

  /** Replacing the last entry of a log by a trade with the same entry keeps the log, when
      the new entry is itself OK. */
  lemma LogOKReplaceLast(ts: seq<Trade>, t: Trade, bars: seq<Bar>, signals: seq<string>, p: Params, k: nat)
    requires |signals| == |bars| && k <= |bars| && |ts| > 0 && LogOK(ts, bars, signals, p, k)
    requires t.entryBar == ts[|ts| - 1].entryBar && TradeOK(t, bars, signals, p, k)
    ensures LogOK(ts[|ts| - 1 := t], bars, signals, p, k)
  {
    var r := ts[|ts| - 1 := t];
    assert r[..|r| - 1] == ts[..|ts| - 1];
  }

  /** Appending a trade that enters no earlier than the last one exits keeps the log. */
  lemma LogOKAppend(ts: seq<Trade>, t: Trade, bars: seq<Bar>, signals: seq<string>, p: Params, k: nat)
    requires |signals| == |bars| && k <= |bars| && LogOK(ts, bars, signals, p, k)
    requires TradeOK(t, bars, signals, p, k)
    requires |ts| > 0 ==> ts[|ts| - 1].exitBar.Some? && ts[|ts| - 1].exitBar.value <= t.entryBar
    ensures LogOK(ts + [t], bars, signals, p, k)
  {
    var r := ts + [t];
    assert r[..|r| - 1] == ts;
  }

  /** Closing the open long on bar i by one of the loop's exit rules keeps the log. */
  lemma CloseLastLogged(st: SimState, i: nat, exit: real, reason: Reason, bars: seq<Bar>, signals: seq<string>, p: Params)
    requires |signals| == |bars| && Start(p) <= i < |bars|
    requires Valid(st) && LongOnly(st) && st.positions == 1 && Logged(st, bars, signals, p, i + 1)
    requires Last(st.trades).entryBar < i
    requires var r := CloseLast(st, i, exit, reason, exit - Last(st.trades).entryPrice - p.cost, p);
             ExitRule(Last(r.trades), bars, signals, p)
    ensures Logged(CloseLast(st, i, exit, reason, exit - Last(st.trades).entryPrice - p.cost, p), bars, signals, p, i + 1)
  {
    var n := |st.trades|;
    var result := exit - Last(st.trades).entryPrice - p.cost;
    var t := st.trades[n - 1].(exitPrice := Some(exit), exitBar := Some(i), reason := reason, result := Some(result));
    assert TradeOK(st.trades[n - 1], bars, signals, p, i + 1);
    assert TradeOK(t, bars, signals, p, i + 1);
    LogOKReplaceLast(st.trades, t, bars, signals, p, i + 1);
  }

  /** The trade CloseLast writes: the open one, with its exit filled in. */
  lemma ClosedLast(st: SimState, i: nat, exit: real, reason: Reason, result: real, p: Params)
    requires Valid(st) && st.positions == 1
    ensures Last(CloseLast(st, i, exit, reason, result, p).trades)
            == Last(st.trades).(exitPrice := Some(exit), exitBar := Some(i), reason := reason, result := Some(result))
  {
  }

  lemma StopLossBranch(st: SimState, i: nat, bar: Bar, signal: string, p: Params)
    requires Valid(st) && st.side == Long
    requires bar.low <= Last(st.trades).entryPrice * (1.0 - p.stopLoss)
    ensures var e := Last(st.trades).entryPrice;
            Manage(st, i, bar, signal, p)
            == CloseLast(st, i, e * (1.0 - p.stopLoss), StopLossLong, e * (1.0 - p.stopLoss) - e - p.cost, p)
  {
    var e := Last(st.trades).entryPrice;
    assert st.positions > 0;
    assert bar.low <= e * (1.0 - p.stopLoss);
  }

  lemma TakeProfitBranch(st: SimState, i: nat, bar: Bar, signal: string, p: Params)
    requires Valid(st) && st.side == Long
    requires bar.low > Last(st.trades).entryPrice * (1.0 - p.stopLoss)
    requires bar.high >= Last(st.trades).entryPrice * (1.0 + p.takeProfit)
    ensures var e := Last(st.trades).entryPrice;
            Manage(st, i, bar, signal, p)
            == CloseLast(st, i, e * (1.0 + p.takeProfit), TakeProfitLong, e * (1.0 + p.takeProfit) - e - p.cost, p)
  {
    var e := Last(st.trades).entryPrice;
    assert st.positions > 0;
    assert !(bar.low <= e * (1.0 - p.stopLoss));
    assert bar.high >= e * (1.0 + p.takeProfit);
  }

  lemma SellSignalBranch(st: SimState, i: nat, bar: Bar, signal: string, p: Params)
    requires Valid(st) && st.side == Long
    requires bar.low > Last(st.trades).entryPrice * (1.0 - p.stopLoss)
    requires bar.high < Last(st.trades).entryPrice * (1.0 + p.takeProfit)
    requires Contains(signal, "VERKOOP")
    ensures var e := Last(st.trades).entryPrice;
            Manage(st, i, bar, signal, p) == CloseLast(st, i, bar.close, SellSignalLong, bar.close - e - p.cost, p)
  {
    var e := Last(st.trades).entryPrice;
    assert st.positions > 0;
    assert !(bar.low <= e * (1.0 - p.stopLoss));
    assert !(bar.high >= e * (1.0 + p.takeProfit));
  }

  lemma HoldBranch(st: SimState, i: nat, bar: Bar, signal: string, p: Params)
    requires Valid(st) && st.side == Long
    requires bar.low > Last(st.trades).entryPrice * (1.0 - p.stopLoss)
    requires bar.high < Last(st.trades).entryPrice * (1.0 + p.takeProfit)
    requires !Contains(signal, "VERKOOP")
    ensures Manage(st, i, bar, signal, p) == st
  {
    var e := Last(st.trades).entryPrice;
    assert st.positions > 0;
    assert !(bar.low <= e * (1.0 - p.stopLoss));
    assert !(bar.high >= e * (1.0 + p.takeProfit));
  }

  /** The stop loss of a long, hit on bar i, closes the trade by its exit rule. */
  lemma StopLossExit(st: SimState, i: nat, bars: seq<Bar>, signals: seq<string>, p: Params)
    requires |signals| == |bars| && Start(p) <= i < |bars|
    requires Valid(st) && st.positions == 1 && Last(st.trades).entryBar < i
    requires bars[i].low <= Last(st.trades).entryPrice * (1.0 - p.stopLoss)
    ensures var e := Last(st.trades).entryPrice;
            var exit := e * (1.0 - p.stopLoss);
            ExitRule(Last(CloseLast(st, i, exit, StopLossLong, exit - e - p.cost, p).trades), bars, signals, p)
  {
    var e := Last(st.trades).entryPrice;
    var exit := e * (1.0 - p.stopLoss);
    ClosedLast(st, i, exit, StopLossLong, exit - e - p.cost, p);
  }

  /** The take profit of a long, reached on bar i without the stop loss, closes the trade by
      its exit rule. */
  lemma TakeProfitExit(st: SimState, i: nat, bars: seq<Bar>, signals: seq<string>, p: Params)
    requires |signals| == |bars| && Start(p) <= i < |bars|
    requires Valid(st) && st.positions == 1 && Last(st.trades).entryBar < i
    requires bars[i].low > Last(st.trades).entryPrice * (1.0 - p.stopLoss)
    requires bars[i].high >= Last(st.trades).entryPrice * (1.0 + p.takeProfit)
    ensures var e := Last(st.trades).entryPrice;
            var exit := e * (1.0 + p.takeProfit);
            ExitRule(Last(CloseLast(st, i, exit, TakeProfitLong, exit - e - p.cost, p).trades), bars, signals, p)
  {
    var e := Last(st.trades).entryPrice;
    var exit := e * (1.0 + p.takeProfit);
    ClosedLast(st, i, exit, TakeProfitLong, exit - e - p.cost, p);
  }

  /** A sell signal on bar i, with neither price level reached, closes the long by its exit
      rule. */
  lemma SellSignalExit(st: SimState, i: nat, bars: seq<Bar>, signals: seq<string>, p: Params)
    requires |signals| == |bars| && Start(p) <= i < |bars|
    requires Valid(st) && st.positions == 1 && Last(st.trades).entryBar < i
    requires bars[i].low > Last(st.trades).entryPrice * (1.0 - p.stopLoss)
    requires bars[i].high < Last(st.trades).entryPrice * (1.0 + p.takeProfit)
    requires Contains(Lagged(signals, p, i), "VERKOOP")
    ensures var e := Last(st.trades).entryPrice;
            ExitRule(Last(CloseLast(st, i, bars[i].close, SellSignalLong, bars[i].close - e - p.cost, p).trades), bars, signals, p)
  {
    var e := Last(st.trades).entryPrice;
    ClosedLast(st, i, bars[i].close, SellSignalLong, bars[i].close - e - p.cost, p);
  }

  /** Position management on bar i: the long is closed by the first exit rule that
      applies, or stays open. */
  lemma ManageLongLogged(st: SimState, i: nat, bars: seq<Bar>, signals: seq<string>, p: Params)
    requires |signals| == |bars| && Start(p) <= i < |bars|
    requires Valid(st) && LongOnly(st) && st.positions == 1 && Logged(st, bars, signals, p, i + 1)
    requires Last(st.trades).entryBar < i
    ensures Logged(Manage(st, i, bars[i], Lagged(signals, p, i), p), bars, signals, p, i + 1)
  {
    var e := Last(st.trades).entryPrice;
    if bars[i].low <= e * (1.0 - p.stopLoss) {
      StopLossLogged(st, i, bars, signals, p);
    } else if bars[i].high >= e * (1.0 + p.takeProfit) {
      TakeProfitLogged(st, i, bars, signals, p);
    } else if Contains(Lagged(signals, p, i), "VERKOOP") {
      SellSignalLogged(st, i, bars, signals, p);
    } else {
      HoldBranch(st, i, bars[i], Lagged(signals, p, i), p);
    }
  }

  lemma StopLossLogged(st: SimState, i: nat, bars: seq<Bar>, signals: seq<string>, p: Params)
    requires |signals| == |bars| && Start(p) <= i < |bars|
    requires Valid(st) && LongOnly(st) && st.positions == 1 && Logged(st, bars, signals, p, i + 1)
    requires Last(st.trades).entryBar < i
    requires bars[i].low <= Last(st.trades).entryPrice * (1.0 - p.stopLoss)
    ensures Logged(Manage(st, i, bars[i], Lagged(signals, p, i), p), bars, signals, p, i + 1)
  {
    var e := Last(st.trades).entryPrice;
    StopLossExit(st, i, bars, signals, p);
    CloseLastLogged(st, i, e * (1.0 - p.stopLoss), StopLossLong, bars, signals, p);
    StopLossBranch(st, i, bars[i], Lagged(signals, p, i), p);
  }

  lemma TakeProfitLogged(st: SimState, i: nat, bars: seq<Bar>, signals: seq<string>, p: Params)
    requires |signals| == |bars| && Start(p) <= i < |bars|
    requires Valid(st) && LongOnly(st) && st.positions == 1 && Logged(st, bars, signals, p, i + 1)
    requires Last(st.trades).entryBar < i
    requires bars[i].low > Last(st.trades).entryPrice * (1.0 - p.stopLoss)
    requires bars[i].high >= Last(st.trades).entryPrice * (1.0 + p.takeProfit)
    ensures Logged(Manage(st, i, bars[i], Lagged(signals, p, i), p), bars, signals, p, i + 1)
  {
    var e := Last(st.trades).entryPrice;
    TakeProfitExit(st, i, bars, signals, p);
    CloseLastLogged(st, i, e * (1.0 + p.takeProfit), TakeProfitLong, bars, signals, p);
    TakeProfitBranch(st, i, bars[i], Lagged(signals, p, i), p);
  }

  lemma SellSignalLogged(st: SimState, i: nat, bars: seq<Bar>, signals: seq<string>, p: Params)
    requires |signals| == |bars| && Start(p) <= i < |bars|
    requires Valid(st) && LongOnly(st) && st.positions == 1 && Logged(st, bars, signals, p, i + 1)
    requires Last(st.trades).entryBar < i
    requires bars[i].low > Last(st.trades).entryPrice * (1.0 - p.stopLoss)
    requires bars[i].high < Last(st.trades).entryPrice * (1.0 + p.takeProfit)
    requires Contains(Lagged(signals, p, i), "VERKOOP")
    ensures Logged(Manage(st, i, bars[i], Lagged(signals, p, i), p), bars, signals, p, i + 1)
  {
    SellSignalExit(st, i, bars, signals, p);
    CloseLastLogged(st, i, bars[i].close, SellSignalLong, bars, signals, p);
    SellSignalBranch(st, i, bars[i], Lagged(signals, p, i), p);
  }

  lemma ManageLogged(st: SimState, i: nat, bars: seq<Bar>, signals: seq<string>, p: Params)
    requires |signals| == |bars| && Start(p) <= i < |bars|
    requires Valid(st) && LongOnly(st) && Logged(st, bars, signals, p, i)
    ensures Logged(Manage(st, i, bars[i], Lagged(signals, p, i), p), bars, signals, p, i + 1)
  {
    LoggedLater(st, bars, signals, p, i);
    if st.positions > 0 {
      assert TradeOK(st.trades[|st.trades| - 1], bars, signals, p, i);
      ManageLongLogged(st, i, bars, signals, p);
    }
  }

  lemma OpenLogged(st: SimState, i: nat, bars: seq<Bar>, signals: seq<string>, p: Params)
    requires |signals| == |bars| && Start(p) <= i < |bars|
    requires Valid(st) && Logged(st, bars, signals, p, i + 1)
    ensures Logged(OpenOnSignal(st, i, bars[i], Lagged(signals, p, i), p), bars, signals, p, i + 1)
  {
    var signal := Lagged(signals, p, i);
    if st.positions == 0 {
      if Contains(signal, "KOOP") {
        var t := Trade(i, bars[i].close, None, None, OpenLong, None, Long);
        var n := |st.trades|;
        assert TradeOK(t, bars, signals, p, i + 1);
        if n > 0 {
          LogOKAll(st.trades, bars, signals, p, i + 1);
          assert TradeOK(st.trades[n - 1], bars, signals, p, i + 1);
        }
        LogOKAppend(st.trades, t, bars, signals, p, i + 1);
      } else if Contains(signal, "VERKOOP") {
        VerkoopHasKoop(signal);
      }
    }
  }

  lemma StepLogged(st: SimState, i: nat, bars: seq<Bar>, signals: seq<string>, p: Params)
    requires |signals| == |bars| && Start(p) <= i < |bars|
    requires Valid(st) && LongOnly(st) && Logged(st, bars, signals, p, i)
    ensures Logged(Step(st, i, bars[i], Lagged(signals, p, i), p), bars, signals, p, i + 1)
  {
    ManageLogged(st, i, bars, signals, p);
    OpenLogged(Manage(st, i, bars[i], Lagged(signals, p, i), p), i, bars, signals, p);
  }

  lemma SimStepLogged(bars: seq<Bar>, signals: seq<string>, p: Params, k: nat)
    requires |signals| == |bars| && Start(p) < k <= |bars|
    requires LongOnly(SimUpTo(bars, signals, p, k - 1))
    requires Logged(SimUpTo(bars, signals, p, k - 1), bars, signals, p, k - 1)
    ensures Logged(SimUpTo(bars, signals, p, k), bars, signals, p, k)
  {
    StepLogged(SimUpTo(bars, signals, p, k - 1), k - 1, bars, signals, p);
  }

  lemma {:induction false} SimLogged(bars: seq<Bar>, signals: seq<string>, p: Params, k: nat)
    requires |signals| == |bars| && k <= |bars|
    ensures Logged(SimUpTo(bars, signals, p, k), bars, signals, p, k)
  {
    if k > Start(p) {
      SimLogged(bars, signals, p, k - 1);
      SimLongOnly(bars, signals, p, k - 1);
      SimStepLogged(bars, signals, p, k);
    }
  }

  lemma CloseAtEndLogged(st: SimState, bars: seq<Bar>, signals: seq<string>, p: Params)
    requires |signals| == |bars| && |bars| > 0
    requires Valid(st) && LongOnly(st) && Logged(st, bars, signals, p, |bars|)
    ensures Logged(CloseAtEnd(st, bars, p), bars, signals, p, |bars|)
  {
    if st.positions > 0 {
      var r := CloseAtEnd(st, bars, p);
      var n := |st.trades|;
      assert TradeOK(st.trades[n - 1], bars, signals, p, |bars|);
      assert TradeOK(r.trades[n - 1], bars, signals, p, |bars|);
      assert r.trades == st.trades[n - 1 := r.trades[n - 1]];
      LogOKReplaceLast(st.trades, r.trades[n - 1], bars, signals, p, |bars|);
    }
  }

  /** The log run_backtest returns: chronological, every trade a closed long opened on a
      "KOOP" signal and closed by a stop loss, a take profit, a sell signal or the end of the
      period, with result exit - entry - cost. */
  lemma TradeLog(bars: seq<Bar>, signals: seq<string>, p: Params)
    requires |signals| == |bars| && p.startCapital != 0.0 && |bars| > 0
    ensures var ts := Backtest(bars, signals, p).summary.trades;
            Chronological(ts)
            && forall j :: 0 <= j < |ts| ==> Closed(ts[j]) && TradeOK(ts[j], bars, signals, p, |bars|)
  {
    var st := SimUpTo(bars, signals, p, |bars|);
    SimLogged(bars, signals, p, |bars|);
    SimLongOnly(bars, signals, p, |bars|);
    CloseAtEndLogged(st, bars, signals, p);
    LogOKAll(CloseAtEnd(st, bars, p).trades, bars, signals, p, |bars|);
  }

  // ---------------------------------------------------------------------------
  // Consequences for a whole run
  // ---------------------------------------------------------------------------

  /** Without a "KOOP" in any signal nothing is traded and the capital is untouched. */
  lemma NoBuySignalNoTrades(bars: seq<Bar>, signals: seq<string>, p: Params)
    requires |signals| == |bars| && p.startCapital != 0.0 && |bars| > 0
    requires forall i :: 0 <= i < |signals| ==> !Contains(signals[i], "KOOP")
    ensures var s := Backtest(bars, signals, p).summary;
            s.trades == [] && s.tradeCount == 0 && s.endValue == p.startCapital && s.returnPct == 0.0
  {
    var ts := Backtest(bars, signals, p).summary.trades;
    TradeLog(bars, signals, p);
    assert |ts| == 0;
    EndValueBookkeeping(bars, signals, p);
  }

  /** The signal column run_backtest computes: the classifier applied to rows whose indicator
      columns carry other names than the ones it reads, so only 'Volume Ratio' is seen. */
  function IndicatorFrameSignals(volumeRatios: seq<Cell>, th: Signals.Thresholds): (sigs: seq<string>)
    ensures |sigs| == |volumeRatios|
    ensures forall i :: 0 <= i < |sigs| ==> !Contains(sigs[i], "KOOP")
  {
    if |volumeRatios| == 0 then []
    else
      var last := Signals.SignalText(Signals.BacktestRow(volumeRatios[|volumeRatios| - 1]), th);
      Signals.BacktestRowNeverBuys(volumeRatios[|volumeRatios| - 1], th);
      IndicatorFrameSignals(volumeRatios[..|volumeRatios| - 1], th) + [last]
  }

  /** So a backtest over the indicator frame never opens a trade and returns 0%. */
  lemma IndicatorFrameNeverTrades(bars: seq<Bar>, volumeRatios: seq<Cell>, th: Signals.Thresholds, p: Params)
    requires |volumeRatios| == |bars| && p.startCapital != 0.0 && |bars| > 0
    ensures var s := Backtest(bars, IndicatorFrameSignals(volumeRatios, th), p).summary;
            s.trades == [] && s.endValue == p.startCapital && s.returnPct == 0.0
  {
    NoBuySignalNoTrades(bars, IndicatorFrameSignals(volumeRatios, th), p);
  }

  /** A sell signal closes a long at the close and, since it also contains "KOOP", opens a new
      long at the same close: the capital grows by the close minus two fees. */
  lemma SellSignalReopens(st: SimState, i: nat, bar: Bar, signal: string, p: Params)
    requires Valid(st) && st.side == Long
    requires bar.low > Last(st.trades).entryPrice * (1.0 - p.stopLoss)
    requires bar.high < Last(st.trades).entryPrice * (1.0 + p.takeProfit)
    requires Contains(signal, "VERKOOP")
    ensures var r := Step(st, i, bar, signal, p);
            var n := |st.trades|;
            |r.trades| == n + 1 && r.side == Long
            && r.trades[n - 1].reason == SellSignalLong && r.trades[n - 1].exitBar == Some(i)
            && r.trades[n - 1].exitPrice == Some(bar.close)
            && r.trades[n].entryBar == i && r.trades[n].entryPrice == bar.close
            && r.capital == st.capital + bar.close - 2.0 * p.cost
  {
    VerkoopHasKoop(signal);
  }

  /** With the default parameters, a long bought at 100 and stopped out at 95 loses 10, yet
      the run reports a gain of 0.85%: the capital received the exit price, not the loss. */
  lemma LosingTradeYetGain()
    ensures var bars := [Bar(100.0, 100.0, 100.0), Bar(100.0, 100.0, 100.0), Bar(100.0, 90.0, 95.0)];
            var s := Backtest(bars, ["KOOP", "", ""], DefaultParams).summary;
            |s.trades| == 1 && s.trades[0].result == Some(-10.0) && s.trades[0].reason == StopLossLong
            && s.endValue == 10085.0 && s.returnPct == 0.85
  {
    var bars := [Bar(100.0, 100.0, 100.0), Bar(100.0, 100.0, 100.0), Bar(100.0, 90.0, 95.0)];
    var signals := ["KOOP", "", ""];
    var p := DefaultParams;
    assert Contains("KOOP", "KOOP");
    var st2 := SimUpTo(bars, signals, p, 2);
    assert st2 == SimState(1, Long, 9995.0, [Trade(1, 100.0, None, None, OpenLong, None, Long)]);
    var st3 := SimUpTo(bars, signals, p, 3);
    assert Manage(st2, 2, bars[2], "", p)
        == SimState(0, Flat, 10085.0, [Trade(1, 100.0, Some(95.0), Some(2), StopLossLong, Some(-10.0), Long)]);
    assert st3 == SimState(0, Flat, 10085.0, [Trade(1, 100.0, Some(95.0), Some(2), StopLossLong, Some(-10.0), Long)]);
  }

  // ---------------------------------------------------------------------------
  // Statistics
  // ---------------------------------------------------------------------------

  lemma {:induction false} WinnerCount(ts: seq<Trade>)
    ensures CountWinners(ts) == 0 <==> forall j :: 0 <= j < |ts| ==> !Winner(ts[j])
    ensures CountWinners(ts) > 0 ==> SumWinners(ts) > 0.0
    ensures CountWinners(ts) == 0 ==> SumWinners(ts) == 0.0
  {
    if |ts| > 0 {
      var init := ts[..|ts| - 1];
      WinnerCount(init);
      assert forall j :: 0 <= j < |init| ==> init[j] == ts[j];
    }
  }

  lemma {:induction false} LoserCount(ts: seq<Trade>)
    ensures CountLosers(ts) == 0 <==> forall j :: 0 <= j < |ts| ==> !Loser(ts[j])
    ensures CountLosers(ts) > 0 ==> SumLosers(ts) < 0.0
    ensures CountLosers(ts) == 0 ==> SumLosers(ts) == 0.0
  {
    if |ts| > 0 {
      var init := ts[..|ts| - 1];
      LoserCount(init);
      assert forall j :: 0 <= j < |init| ==> init[j] == ts[j];
    }
  }

  /** Among closed trades, winners and losers make up all of them exactly when no result is
      zero. */
  lemma {:induction false} WinnersAndLosers(ts: seq<Trade>)
    requires forall j :: 0 <= j < |ts| ==> ts[j].result.Some?
    ensures CountWinners(ts) + CountLosers(ts) <= |ts|
    ensures CountWinners(ts) + CountLosers(ts) == |ts| <==> forall j :: 0 <= j < |ts| ==> ts[j].result.value != 0.0
  {
    if |ts| > 0 {
      var init := ts[..|ts| - 1];
      assert forall j :: 0 <= j < |init| ==> init[j] == ts[j];
      WinnersAndLosers(init);
    }
  }

  lemma RatioAtMostOne(w: nat, n: nat)
    requires 0 < n && w <= n
    ensures 0.0 <= (w as real) / (n as real) <= 1.0
  {
    assert (w as real) <= (n as real);
  }

  /** The win rate is a percentage. */
  lemma WinRateBounds(st: SimState, p: Params)
    requires p.startCapital != 0.0
    ensures 0.0 <= Summarize(st, p).winPct <= 100.0
  {
    var n := |st.trades|;
    if n > 0 {
      RatioAtMostOne(CountWinners(st.trades), n);
    }
  }

  /** The average win is positive exactly when some trade won, and 0 otherwise. */
  lemma AverageWin(st: SimState, p: Params)
    requires p.startCapital != 0.0
    ensures var s := Summarize(st, p);
            (s.avgWin > 0.0 <==> exists j :: 0 <= j < |st.trades| && Winner(st.trades[j]))
            && (s.avgWin == 0.0 <==> forall j :: 0 <= j < |st.trades| ==> !Winner(st.trades[j]))
  {
    WinnerCount(st.trades);
    var w := CountWinners(st.trades);
    if w > 0 {
      assert SumWinners(st.trades) / (w as real) > 0.0;
    }
  }

  /** The average loss of a log of closed trades is NaN exactly when some trade broke even and
      none lost; otherwise it is negative exactly when some trade lost, and 0 when none did. */
  lemma AverageLoss(st: SimState, p: Params)
    requires p.startCapital != 0.0
    requires forall j :: 0 <= j < |st.trades| ==> Closed(st.trades[j])
    ensures var s := Summarize(st, p);
            (s.avgLoss.None? <==>
               (exists j :: 0 <= j < |st.trades| && ResultOr0(st.trades[j]) == 0.0)
               && forall j :: 0 <= j < |st.trades| ==> !Loser(st.trades[j]))
            && (s.avgLoss.Some? ==>
                  (s.avgLoss.value < 0.0 <==> exists j :: 0 <= j < |st.trades| && Loser(st.trades[j]))
                  && s.avgLoss.value <= 0.0)
  {
    var ts := st.trades;
    LoserCount(ts);
    WinnersAndLosers(ts);
    var l := CountLosers(ts);
    if l > 0 {
      assert SumLosers(ts) / (l as real) < 0.0;
    }
  }

  /** The statistics run_backtest reports. */
  lemma BacktestStats(bars: seq<Bar>, signals: seq<string>, p: Params)
    requires |signals| == |bars| && p.startCapital != 0.0 && |bars| > 0
    ensures var s := Backtest(bars, signals, p).summary;
            0.0 <= s.winPct <= 100.0
            && (s.avgLoss.None? <==>
                  (exists j :: 0 <= j < |s.trades| && ResultOr0(s.trades[j]) == 0.0)
                  && forall j :: 0 <= j < |s.trades| ==> !Loser(s.trades[j]))
  {
    var st := CloseAtEnd(SimUpTo(bars, signals, p, |bars|), bars, p);
    TradeLog(bars, signals, p);
    WinRateBounds(st, p);
    AverageLoss(st, p);
  }
}
