/** The grid search of backtesting_engine.py (optimaliseer_backtest, lines 253-318).

    Every combination of signal delay, stop-loss and take-profit is run through the backtest; failed runs
    are skipped, and the first combination with the highest score is kept. The backtest
    itself is a parameter: a function from a grid cell to the run's return percentage, or
    None when the run reports an error.
 */
module Optimizer {
  import opened Common
  import Backtest
  import Signals

  /** Percentages are kept as whole hundredths, so 0.05 is 5. */
  datatype GridCell = GridCell(delay: int, stopLossHundredths: int, takeProfitHundredths: int)

  /** Inclusive bounds per axis. */
  datatype Grid = Grid(
    delayFrom: int, delayTo: int,
    stopLossFrom: int, stopLossTo: int,
    takeProfitFrom: int, takeProfitTo: int)

  /** The cells the default search visits: delay 0-3, stop-loss 0.01-0.10 and take-profit
      0.05-0.21. The take-profit range is given as 0.05-0.20, but in floating point
      `np.arange(0.05, 0.20 + 0.01, 0.01)` yields 17 values, the last rounding to 0.21; the
      stop-loss range 0.01-0.10 yields exactly its 10 values. */
  const DefaultGrid := Grid(0, 3, 1, 10, 5, 21)

  predicate InGrid(c: GridCell, g: Grid)
  {
    g.delayFrom <= c.delay <= g.delayTo
    && g.stopLossFrom <= c.stopLossHundredths <= g.stopLossTo
    && g.takeProfitFrom <= c.takeProfitHundredths <= g.takeProfitTo
  }

  /** The order of the three nested loops: delay, then stop-loss, then take-profit. */
  predicate Precedes(a: GridCell, b: GridCell)
  {
    a.delay < b.delay
    || (a.delay == b.delay && a.stopLossHundredths < b.stopLossHundredths)
    || (a.delay == b.delay && a.stopLossHundredths == b.stopLossHundredths
        && a.takeProfitHundredths < b.takeProfitHundredths)
  }

  predicate ValidMetric(metric: string)
  {
    metric == "rendement" || metric == "sharpe"
  }

  /** 'prestatie': the return percentage for "rendement", the placeholder 0 for "sharpe". */
  function Score(returnPct: real, metric: string): real
  {
    if metric == "rendement" then returnPct else 0.0
  }

  datatype OptOutcome =
    | OptFailure(message: string)
    | OptSuccess(bestResult: real, bestParams: GridCell)   // 'beste_resultaten', 'beste_parameters'

  const InvalidMetricMessage := "Ongeldige optimalisatiemetriek."
  const NoResultMessage := "Optimalisatie mislukt: geen geldige resultaten gevonden."

  ghost predicate AnySuccess(g: Grid, run: GridCell -> Option<real>)
  {
    exists c :: InGrid(c, g) && run(c).Some?
  }

  /** c is a successful cell whose score no successful cell beats, and which every earlier
      successful cell scores strictly below. */
  ghost predicate FirstBest(g: Grid, run: GridCell -> Option<real>, metric: string, c: GridCell, best: real)
  {
    InGrid(c, g) && run(c).Some? && Score(run(c).value, metric) == best
    && forall c' :: InGrid(c', g) && run(c').Some? ==>
         Score(run(c').value, metric) <= best
         && (Precedes(c', c) ==> Score(run(c').value, metric) < best)
  }

  /** What optimaliseer_backtest returns: the no-result error when no cell succeeds; the
      metric error when one does and the metric is unknown; otherwise the first best cell. */
  ghost predicate Optimizes(g: Grid, run: GridCell -> Option<real>, metric: string, o: OptOutcome)
  {
    if !AnySuccess(g, run) then o == OptFailure(NoResultMessage)
    else if !ValidMetric(metric) then o == OptFailure(InvalidMetricMessage)
    else o.OptSuccess? && FirstBest(g, run, metric, o.bestParams, o.bestResult)
  }

  /** The loop state after the cells that precede `next`. */
  ghost predicate Scanned(g: Grid, run: GridCell -> Option<real>, metric: string,
                          best: Option<real>, bestCell: GridCell, next: GridCell)
  {
    (ValidMetric(metric) || best.None?)
    && (best.None? <==> forall c :: InGrid(c, g) && Precedes(c, next) ==> run(c).None?)
    && (best.Some? ==>
          InGrid(bestCell, g) && Precedes(bestCell, next) && run(bestCell).Some?
          && Score(run(bestCell).value, metric) == best.value
          && forall c :: InGrid(c, g) && Precedes(c, next) && run(c).Some? ==>
               Score(run(c).value, metric) <= best.value
               && (Precedes(c, bestCell) ==> Score(run(c).value, metric) < best.value))
  }

  /** Only which grid cells precede `next` matters. */
  lemma ScannedMove(g: Grid, run: GridCell -> Option<real>, metric: string,
                    best: Option<real>, bestCell: GridCell, a: GridCell, b: GridCell)
    requires Scanned(g, run, metric, best, bestCell, a)
    requires forall c :: InGrid(c, g) ==> (Precedes(c, a) <==> Precedes(c, b))
    ensures Scanned(g, run, metric, best, bestCell, b)
  {
  }

  /** Past the last take-profit of a row, the row is done. */
  lemma RowDone(g: Grid, run: GridCell -> Option<real>, metric: string,
                best: Option<real>, bestCell: GridCell, d: int, s: int, t: int)
    requires t > g.takeProfitTo
    requires Scanned(g, run, metric, best, bestCell, GridCell(d, s, t))
    ensures Scanned(g, run, metric, best, bestCell, GridCell(d, s + 1, g.takeProfitFrom))
  {
    ScannedMove(g, run, metric, best, bestCell, GridCell(d, s, t), GridCell(d, s + 1, g.takeProfitFrom));
  }

  /** Past the last stop-loss of a delay, the delay is done. */
  lemma PlaneDone(g: Grid, run: GridCell -> Option<real>, metric: string,
                  best: Option<real>, bestCell: GridCell, d: int, s: int)
    requires s > g.stopLossTo
    requires Scanned(g, run, metric, best, bestCell, GridCell(d, s, g.takeProfitFrom))
    ensures Scanned(g, run, metric, best, bestCell, GridCell(d + 1, g.stopLossFrom, g.takeProfitFrom))
  {
    ScannedMove(g, run, metric, best, bestCell, GridCell(d, s, g.takeProfitFrom), GridCell(d + 1, g.stopLossFrom, g.takeProfitFrom));
  }

  /** A failed run changes nothing. */
  lemma SkipCell(g: Grid, run: GridCell -> Option<real>, metric: string,
                 best: Option<real>, bestCell: GridCell, c: GridCell)
    requires run(c).None?
    requires Scanned(g, run, metric, best, bestCell, c)
    ensures Scanned(g, run, metric, best, bestCell, GridCell(c.delay, c.stopLossHundredths, c.takeProfitHundredths + 1))
  {
  }

  /** A successful run under a known metric replaces the best only when it scores strictly
      higher. */
  lemma ScoreCell(g: Grid, run: GridCell -> Option<real>, metric: string,
                  best: Option<real>, bestCell: GridCell, c: GridCell)
    requires InGrid(c, g) && run(c).Some? && ValidMetric(metric)
    requires Scanned(g, run, metric, best, bestCell, c)
    ensures var score := Score(run(c).value, metric);
            var updated := best.None? || score > best.value;
            Scanned(g, run, metric,
                    if updated then Some(score) else best, if updated then c else bestCell,
                    GridCell(c.delay, c.stopLossHundredths, c.takeProfitHundredths + 1))
  {
  }

  /** An unknown metric is rejected as soon as one run succeeds. */
  lemma UnknownMetric(g: Grid, run: GridCell -> Option<real>, metric: string, c: GridCell)
    requires InGrid(c, g) && run(c).Some? && !ValidMetric(metric)
    ensures Optimizes(g, run, metric, OptFailure(InvalidMetricMessage))
  {
  }

  /** After the last delay every cell has been run. */
  lemma GridDone(g: Grid, run: GridCell -> Option<real>, metric: string,
                 best: Option<real>, bestCell: GridCell, d: int)
    requires d > g.delayTo
    requires Scanned(g, run, metric, best, bestCell, GridCell(d, g.stopLossFrom, g.takeProfitFrom))
    ensures Optimizes(g, run, metric, if best.Some? then OptSuccess(best.value, bestCell) else OptFailure(NoResultMessage))
  {
    assert forall c :: InGrid(c, g) ==> Precedes(c, GridCell(d, g.stopLossFrom, g.takeProfitFrom));
  }

  /** The innermost loop of optimaliseer_backtest, over the take-profits of one delay and
      stop-loss; `aborted` reports the early return on an unknown metric. */
  method ScanRow(g: Grid, run: GridCell -> Option<real>, metric: string,
                 best0: Option<real>, bestCell0: GridCell, d: int, s: int)
    returns (best: Option<real>, bestCell: GridCell, aborted: bool)
    requires g.delayFrom <= d <= g.delayTo && g.stopLossFrom <= s <= g.stopLossTo
    requires Scanned(g, run, metric, best0, bestCell0, GridCell(d, s, g.takeProfitFrom))
    ensures aborted ==> Optimizes(g, run, metric, OptFailure(InvalidMetricMessage))
    ensures !aborted ==> Scanned(g, run, metric, best, bestCell, GridCell(d, s + 1, g.takeProfitFrom))
  {
    best, bestCell, aborted := best0, bestCell0, false;
    var t := g.takeProfitFrom;
    while t <= g.takeProfitTo
      invariant Scanned(g, run, metric, best, bestCell, GridCell(d, s, t))
      decreases g.takeProfitTo - t
    {
      var c := GridCell(d, s, t);
      var result := run(c);
      if result.Some? {
        var score: real;
        if metric == "rendement" {
          score := result.value;
        } else if metric == "sharpe" {
          score := 0.0;
        } else {
          UnknownMetric(g, run, metric, c);
          return best, bestCell, true;
        }
        assert score == Score(result.value, metric);
        ScoreCell(g, run, metric, best, bestCell, c);
        if best.None? || score > best.value {
          best := Some(score);
          bestCell := c;
        }
      } else {
        SkipCell(g, run, metric, best, bestCell, c);
      }
      t := t + 1;
    }
    RowDone(g, run, metric, best, bestCell, d, s, t);
  }

  /** optimaliseer_backtest: three nested loops, a strictly-greater update of the best score,
      and an early return on an unknown metric at the first successful run. */
  method Optimize(g: Grid, run: GridCell -> Option<real>, metric: string) returns (o: OptOutcome)
    ensures Optimizes(g, run, metric, o)
  {
    var best: Option<real> := None;
    var bestCell := GridCell(0, 0, 0);
    var d := g.delayFrom;
    while d <= g.delayTo
      invariant Scanned(g, run, metric, best, bestCell, GridCell(d, g.stopLossFrom, g.takeProfitFrom))
      decreases g.delayTo - d
    {
      var s := g.stopLossFrom;
      while s <= g.stopLossTo
        invariant g.delayFrom <= d <= g.delayTo
        invariant Scanned(g, run, metric, best, bestCell, GridCell(d, s, g.takeProfitFrom))
        decreases g.stopLossTo - s
      {
        var aborted;
        best, bestCell, aborted := ScanRow(g, run, metric, best, bestCell, d, s);
        if aborted {
          return OptFailure(InvalidMetricMessage);
        }
        s := s + 1;
      }
      PlaneDone(g, run, metric, best, bestCell, d, s);
      d := d + 1;
    }
    GridDone(g, run, metric, best, bestCell, d);
    if best.Some? {
      o := OptSuccess(best.value, bestCell);
    } else {
      o := OptFailure(NoResultMessage);
    }
  }

  // ---------------------------------------------------------------------------
  // Properties of the search
  // ---------------------------------------------------------------------------

  /** The loop order is total on distinct cells. */
  lemma PrecedesTotal(a: GridCell, b: GridCell)
    requires a != b
    ensures Precedes(a, b) || Precedes(b, a)
  {
  }

  /** The outcome is fully determined by the grid, the runs and the metric. */
  lemma OptimumUnique(g: Grid, run: GridCell -> Option<real>, metric: string, o1: OptOutcome, o2: OptOutcome)
    requires Optimizes(g, run, metric, o1) && Optimizes(g, run, metric, o2)
    ensures o1 == o2
  {
    if o1.OptSuccess? {
      var c1, c2 := o1.bestParams, o2.bestParams;
      if c1 != c2 {
        PrecedesTotal(c1, c2);
      }
    }
  }

  /** When every successful run scores the same, the first successful cell wins. */
  lemma EqualScoresPickFirst(g: Grid, run: GridCell -> Option<real>, metric: string, o: OptOutcome, k: real)
    requires Optimizes(g, run, metric, o) && o.OptSuccess?
    requires forall c :: InGrid(c, g) && run(c).Some? ==> Score(run(c).value, metric) == k
    ensures o.bestResult == k
    ensures forall c :: InGrid(c, g) && Precedes(c, o.bestParams) ==> run(c).None?
  {
  }

  /** Under "sharpe" every score is the placeholder 0, so the first successful cell wins. */
  lemma SharpePicksFirstSuccess(g: Grid, run: GridCell -> Option<real>, o: OptOutcome)
    requires Optimizes(g, run, "sharpe", o) && AnySuccess(g, run)
    ensures o.OptSuccess? && o.bestResult == 0.0
    ensures forall c :: InGrid(c, g) && Precedes(c, o.bestParams) ==> run(c).None?
  {
    EqualScoresPickFirst(g, run, "sharpe", o, 0.0);
  }

  /** run_backtest on one grid cell, with the rest of the parameters fixed; a failed run is
      None. Negative delays are not modelled. */
  function RunCell(bars: seq<Backtest.Bar>, signals: seq<string>, startCapital: real, cost: real, c: GridCell): (r: Option<real>)
    requires |signals| == |bars| && startCapital != 0.0
    ensures r.Some? <==> c.delay >= 0 && |bars| > 0
    ensures forall p: Backtest.Params {:trigger Backtest.Backtest(bars, signals, p)} ::
      r.Some? && p.startCapital == startCapital && p.cost == cost && p.delay == c.delay
      && p.stopLoss * 100.0 == c.stopLossHundredths as real
      && p.takeProfit * 100.0 == c.takeProfitHundredths as real
      ==> r.value == Backtest.Backtest(bars, signals, p).summary.returnPct
  {
    if c.delay < 0 || |bars| == 0 then None
    else
      var p := Backtest.Params(startCapital, cost, c.delay,
                               c.stopLossHundredths as real / 100.0, c.takeProfitHundredths as real / 100.0);
      Some(Backtest.Backtest(bars, signals, p).summary.returnPct)
  }

  /** The runs the grid search sees. */
  function BacktestRun(bars: seq<Backtest.Bar>, signals: seq<string>, startCapital: real, cost: real): (run: GridCell -> Option<real>)
    requires |signals| == |bars| && startCapital != 0.0
    ensures forall c :: run(c) == RunCell(bars, signals, startCapital, cost, c)
    ensures forall c :: run(c).Some? <==> c.delay >= 0 && |bars| > 0
    ensures forall c, p: Backtest.Params {:trigger run(c), Backtest.Backtest(bars, signals, p)} ::
      run(c).Some? && p.startCapital == startCapital && p.cost == cost && p.delay == c.delay
      && p.stopLoss * 100.0 == c.stopLossHundredths as real
      && p.takeProfit * 100.0 == c.takeProfitHundredths as real
      ==> run(c).value == Backtest.Backtest(bars, signals, p).summary.returnPct
  {
    (c: GridCell) => RunCell(bars, signals, startCapital, cost, c)
  }

  /** When every cell of the default grid returns 0%, the default search by return picks its
      very first cell: delay 0, stop-loss 0.01, take-profit 0.05. */
  lemma FlatReturnsPickFirstCell(run: GridCell -> Option<real>, o: OptOutcome)
    requires forall c :: InGrid(c, DefaultGrid) ==> run(c) == Some(0.0)
    requires Optimizes(DefaultGrid, run, "rendement", o)
    ensures o == OptSuccess(0.0, GridCell(0, 1, 5))
  {
    assert InGrid(GridCell(0, 1, 5), DefaultGrid);
    EqualScoresPickFirst(DefaultGrid, run, "rendement", o, 0.0);
  }

  /** With the signal column run_backtest computes, every run returns 0%. */
  lemma IndicatorFrameRunsReturnZero(bars: seq<Backtest.Bar>, volumeRatios: seq<Cell>, th: Signals.Thresholds,
                                     startCapital: real, cost: real, c: GridCell)
    requires |volumeRatios| == |bars| && |bars| > 0 && startCapital != 0.0 && c.delay >= 0
    ensures BacktestRun(bars, Backtest.IndicatorFrameSignals(volumeRatios, th), startCapital, cost)(c) == Some(0.0)
  {
    var signals := Backtest.IndicatorFrameSignals(volumeRatios, th);
    IndicatorFrameCellReturnsZero(bars, volumeRatios, th, startCapital, cost, c);
    assert BacktestRun(bars, signals, startCapital, cost)(c) == RunCell(bars, signals, startCapital, cost, c);
  }

  lemma IndicatorFrameCellReturnsZero(bars: seq<Backtest.Bar>, volumeRatios: seq<Cell>, th: Signals.Thresholds,
                                      startCapital: real, cost: real, c: GridCell)
    requires |volumeRatios| == |bars| && |bars| > 0 && startCapital != 0.0 && c.delay >= 0
    ensures RunCell(bars, Backtest.IndicatorFrameSignals(volumeRatios, th), startCapital, cost, c) == Some(0.0)
  {
    NoBuySignalCellReturnsZero(bars, Backtest.IndicatorFrameSignals(volumeRatios, th), startCapital, cost, c);
  }

  /** A run over signals without "KOOP" returns 0%. */
  lemma NoBuySignalCellReturnsZero(bars: seq<Backtest.Bar>, signals: seq<string>, startCapital: real, cost: real, c: GridCell)
    requires |signals| == |bars| && |bars| > 0 && startCapital != 0.0 && c.delay >= 0
    requires forall i :: 0 <= i < |signals| ==> !Contains(signals[i], "KOOP")
    ensures RunCell(bars, signals, startCapital, cost, c) == Some(0.0)
  {
    var p := Backtest.Params(startCapital, cost, c.delay,
                             c.stopLossHundredths as real / 100.0, c.takeProfitHundredths as real / 100.0);
    Backtest.NoBuySignalNoTrades(bars, signals, p);
  }

  /** So the default search by return over the indicator frame picks its first cell. */
  lemma IndicatorFramePicksFirstCell(bars: seq<Backtest.Bar>, volumeRatios: seq<Cell>, th: Signals.Thresholds,
                                     startCapital: real, cost: real, o: OptOutcome)
    requires |volumeRatios| == |bars| && |bars| > 0 && startCapital != 0.0
    requires Optimizes(DefaultGrid, BacktestRun(bars, Backtest.IndicatorFrameSignals(volumeRatios, th), startCapital, cost), "rendement", o)
    ensures o == OptSuccess(0.0, GridCell(0, 1, 5))
  {
    var run := BacktestRun(bars, Backtest.IndicatorFrameSignals(volumeRatios, th), startCapital, cost);
    forall c | InGrid(c, DefaultGrid)
      ensures run(c) == Some(0.0)
    {
      IndicatorFrameRunsReturnZero(bars, volumeRatios, th, startCapital, cost, c);
    }
    FlatReturnsPickFirstCell(run, o);
  }
}
