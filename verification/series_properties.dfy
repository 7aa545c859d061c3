/**
 Properties of the reserve chart's series that relate several points, or the
 series to its inputs: its shape, the windows behind each sum, the case of no
 valid draw, the absence of double counting, and the examples that pin the
 numbers down.
 */
module SeriesProperties {
  import opened Optional
  import opened Labels
  import opened Draws
  import opened Windows
  import opened ReserveChart

  /** Draw `i`'s point, one draw at a time: its name, reserve, rewards, buyback and balance. */
  lemma DrawPointShape(
    draws: seq<ValidDraw>, manualEvents: seq<LogEvent>, backstopEvents: seq<LogEvent>,
    pending: nat, firstDrawOpenedAt: nat, currentTimestamp: nat, i: nat)
    requires i < |draws|
    ensures var p := ChartSeries(draws, manualEvents, backstopEvents, pending, firstDrawOpenedAt, currentTimestamp)[i + 1];
      && p.name == DrawLabel(draws[i].drawAward.drawId, draws[i].drawAward.timestamp)
      && p.reserve == 0
      && p.rewards == draws[i].auctionReward + draws[i].drawAward.reward
      && p.buyback == draws[i].drawAward.remainingReserve
      && p.liquidations + p.manual == p.rewards + p.prizeBackstops + p.buyback
  {
    ReserveChart.SeriesPoints(draws, manualEvents, backstopEvents, pending, firstDrawOpenedAt, currentTimestamp, i + 1);
  }

  /** Start first with every amount 0, one point per valid draw in filtered order, `Now` last. */
  lemma SeriesShape(
    draws: seq<ValidDraw>, manualEvents: seq<LogEvent>, backstopEvents: seq<LogEvent>,
    pending: nat, firstDrawOpenedAt: nat, currentTimestamp: nat)
    ensures var r := ChartSeries(draws, manualEvents, backstopEvents, pending, firstDrawOpenedAt, currentTimestamp);
      && r[0] == DataPoint(StartLabel(firstDrawOpenedAt), 0, 0, 0, 0, 0, 0)
      && (forall i :: 0 <= i < |draws| ==>
            && r[i + 1].name == DrawLabel(draws[i].drawAward.drawId, draws[i].drawAward.timestamp)
            && r[i + 1].reserve == 0
            && r[i + 1].rewards == draws[i].auctionReward + draws[i].drawAward.reward
            && r[i + 1].buyback == draws[i].drawAward.remainingReserve
            && r[i + 1].liquidations + r[i + 1].manual == r[i + 1].rewards + r[i + 1].prizeBackstops + r[i + 1].buyback)
      && r[|draws| + 1].name == NowLabel(currentTimestamp)
      && r[|draws| + 1].reserve == pending
      && r[|draws| + 1].liquidations == pending - r[|draws| + 1].manual
      && r[|draws| + 1].rewards == 0 && r[|draws| + 1].prizeBackstops == 0 && r[|draws| + 1].buyback == 0
  {
    ReserveChart.SeriesPoints(draws, manualEvents, backstopEvents, pending, firstDrawOpenedAt, currentTimestamp, 0);
    forall i | 0 <= i < |draws| {
      DrawPointShape(draws, manualEvents, backstopEvents, pending, firstDrawOpenedAt, currentTimestamp, i);
    }
    ReserveChart.SeriesPoints(draws, manualEvents, backstopEvents, pending, firstDrawOpenedAt, currentTimestamp, |draws| + 1);
  }

  /** Draw `i`'s sums, one draw at a time. */
  lemma DrawPointWindow(
    draws: seq<ValidDraw>, manualEvents: seq<LogEvent>, backstopEvents: seq<LogEvent>,
    pending: nat, firstDrawOpenedAt: nat, currentTimestamp: nat, i: nat)
    requires i < |draws|
    ensures var r := ChartSeries(draws, manualEvents, backstopEvents, pending, firstDrawOpenedAt, currentTimestamp);
      var w := Window(if i == 0 then 0 else draws[i - 1].drawAward.blockNumber, Some(draws[i].drawAward.blockNumber));
      r[i + 1].manual == WindowSum(manualEvents, w) && r[i + 1].prizeBackstops == WindowSum(backstopEvents, w)
  {
    ReserveChart.SeriesPoints(draws, manualEvents, backstopEvents, pending, firstDrawOpenedAt, currentTimestamp, i + 1);
  }

  /** The `Now` sum, once there is a valid draw. */
  lemma NowPointWindow(
    draws: seq<ValidDraw>, manualEvents: seq<LogEvent>, backstopEvents: seq<LogEvent>,
    pending: nat, firstDrawOpenedAt: nat, currentTimestamp: nat)
    requires |draws| > 0
    ensures var r := ChartSeries(draws, manualEvents, backstopEvents, pending, firstDrawOpenedAt, currentTimestamp);
      r[|draws| + 1].manual == WindowSum(manualEvents, Window(draws[|draws| - 1].drawAward.blockNumber, Some(MAX_UINT_256)))
  {
    ReserveChart.SeriesPoints(draws, manualEvents, backstopEvents, pending, firstDrawOpenedAt, currentTimestamp, |draws| + 1);
  }

  /**
   Draw `i`'s sums cover the events with `lo <= block < hi`, where `lo` is the
   previous valid draw's block (0 for the first) and `hi` is draw `i`'s own
   block; the `Now` sum covers the last draw's block up to `MAX_UINT_256`.
   */
  lemma SeriesWindows(
    draws: seq<ValidDraw>, manualEvents: seq<LogEvent>, backstopEvents: seq<LogEvent>,
    pending: nat, firstDrawOpenedAt: nat, currentTimestamp: nat)
    ensures var r := ChartSeries(draws, manualEvents, backstopEvents, pending, firstDrawOpenedAt, currentTimestamp);
      && (forall i :: 0 <= i < |draws| ==>
            var lo := if i == 0 then 0 else draws[i - 1].drawAward.blockNumber;
            var w := Window(lo, Some(draws[i].drawAward.blockNumber));
            r[i + 1].manual == WindowSum(manualEvents, w) && r[i + 1].prizeBackstops == WindowSum(backstopEvents, w))
      && (|draws| > 0 ==>
            r[|draws| + 1].manual == WindowSum(manualEvents, Window(draws[|draws| - 1].drawAward.blockNumber, Some(MAX_UINT_256))))
  {
    forall i | 0 <= i < |draws| {
      DrawPointWindow(draws, manualEvents, backstopEvents, pending, firstDrawOpenedAt, currentTimestamp, i);
    }
    if |draws| > 0 {
      NowPointWindow(draws, manualEvents, backstopEvents, pending, firstDrawOpenedAt, currentTimestamp);
    }
  }

  /** With no valid draw the upper bound stays undefined: nothing is counted and `Now` shows the pending reserve as liquidations. */
  lemma NoValidDraws(
    rngTxs: seq<RngTxs>, manualEvents: seq<LogEvent>, backstopEvents: seq<LogEvent>,
    pending: nat, firstDrawOpenedAt: nat, currentTimestamp: nat)
    requires forall t :: t in rngTxs ==> !IsValid(t)
    ensures var r := ChartSeries(ValidDraws(rngTxs), manualEvents, backstopEvents, pending, firstDrawOpenedAt, currentTimestamp);
      && |r| == 2
      && r[1] == DataPoint(NowLabel(currentTimestamp), pending, pending, 0, 0, 0, 0)
  {
    ValidDrawsEmpty(rngTxs);
  }

  /** An entry the filter drops, wherever it sits, leaves the series exactly as without it. */
  lemma DroppedDrawLeavesNoGap(
    before: seq<RngTxs>, dropped: RngTxs, after: seq<RngTxs>,
    manualEvents: seq<LogEvent>, backstopEvents: seq<LogEvent>,
    pending: nat, firstDrawOpenedAt: nat, currentTimestamp: nat)
    requires !IsValid(dropped)
    ensures ChartSeries(ValidDraws(before + [dropped] + after), manualEvents, backstopEvents, pending, firstDrawOpenedAt, currentTimestamp)
         == ChartSeries(ValidDraws(before + after), manualEvents, backstopEvents, pending, firstDrawOpenedAt, currentTimestamp)
  {
    ValidDrawsAppend(before + [dropped], after);
    ValidDrawsAppend(before, [dropped]);
    ValidDrawsSingle(dropped);
    ValidDrawsAppend(before, after);
    assert ValidDraws(before) + [] == ValidDraws(before);
  }

  /** The `manual` amounts of a run of points, added up. */
  function ManualTotal(points: seq<DataPoint>): int
    decreases |points|
  {
    if |points| == 0 then 0 else ManualTotal(points[..|points| - 1]) + points[|points| - 1].manual
  }

  /** The `prizeBackstops` amounts of a run of points, added up. */
  function BackstopTotal(points: seq<DataPoint>): int
    decreases |points|
  {
    if |points| == 0 then 0 else BackstopTotal(points[..|points| - 1]) + points[|points| - 1].prizeBackstops
  }

  /** Points whose `manual` amounts are, past the first, the sums over the walk's windows in order. */
  predicate ManualFollowsWindows(r: seq<DataPoint>, events: seq<LogEvent>, draws: seq<ValidDraw>) {
    && |r| == |draws| + 2
    && r[0].manual == 0
    && forall k :: 1 <= k <= |draws| + 1 ==> r[k].manual == WindowSum(events, DrawWindow(draws, k - 1))
  }

  /** Points whose `prizeBackstops` amounts are, between the first and the last, the sums over the draws' windows. */
  predicate BackstopsFollowWindows(r: seq<DataPoint>, events: seq<LogEvent>, draws: seq<ValidDraw>) {
    && |r| == |draws| + 2
    && r[0].prizeBackstops == 0
    && forall k :: 1 <= k <= |draws| ==> r[k].prizeBackstops == WindowSum(events, DrawWindow(draws, k - 1))
  }

  lemma {:induction false} ManualTotalPrefix(r: seq<DataPoint>, events: seq<LogEvent>, draws: seq<ValidDraw>, k: nat)
    requires ManualFollowsWindows(r, events, draws)
    requires k <= |draws| + 1
    ensures ManualTotal(r[..k + 1]) == SumOverWindows(events, draws, k)
    decreases k
  {
    if k == 0 {
      assert r[..1][..0] == [];
    } else {
      ManualTotalPrefix(r, events, draws, k - 1);
      assert r[..k + 1][..k] == r[..k];
    }
  }

  lemma {:induction false} BackstopTotalPrefix(r: seq<DataPoint>, events: seq<LogEvent>, draws: seq<ValidDraw>, k: nat)
    requires BackstopsFollowWindows(r, events, draws)
    requires k <= |draws|
    ensures BackstopTotal(r[..k + 1]) == SumOverWindows(events, draws, k)
    decreases k
  {
    if k == 0 {
      assert r[..1][..0] == [];
    } else {
      BackstopTotalPrefix(r, events, draws, k - 1);
      assert r[..k + 1][..k] == r[..k];
    }
  }

  /**
   No double counting of manual contributions: with ascending draw blocks, the
   `manual` amounts of all points add up to every manual contribution logged
   below `MAX_UINT_256`, each counted once.
   */
  lemma ManualPartition(
    draws: seq<ValidDraw>, manualEvents: seq<LogEvent>, backstopEvents: seq<LogEvent>,
    pending: nat, firstDrawOpenedAt: nat, currentTimestamp: nat)
    requires |draws| > 0 && BlocksAscending(draws) && BlocksBounded(draws)
    ensures ManualTotal(ChartSeries(draws, manualEvents, backstopEvents, pending, firstDrawOpenedAt, currentTimestamp))
         == WindowSum(manualEvents, Window(0, Some(MAX_UINT_256)))
  {
    var r := ChartSeries(draws, manualEvents, backstopEvents, pending, firstDrawOpenedAt, currentTimestamp);
    forall k | 0 <= k <= |draws| + 1 {
      ReserveChart.SeriesPoints(draws, manualEvents, backstopEvents, pending, firstDrawOpenedAt, currentTimestamp, k);
    }
    ManualTotalPrefix(r, manualEvents, draws, |draws| + 1);
    assert r[..|draws| + 2] == r;
    WindowsPartitionSum(manualEvents, draws);
  }

  /**
   Backstops are counted only up to the last draw: their amounts over all
   points add up to the backstop events below the last draw's block, and the
   later ones appear nowhere.
   */
  lemma BackstopsUpToLastDraw(
    draws: seq<ValidDraw>, manualEvents: seq<LogEvent>, backstopEvents: seq<LogEvent>,
    pending: nat, firstDrawOpenedAt: nat, currentTimestamp: nat)
    requires |draws| > 0 && BlocksAscending(draws)
    ensures BackstopTotal(ChartSeries(draws, manualEvents, backstopEvents, pending, firstDrawOpenedAt, currentTimestamp))
         == WindowSum(backstopEvents, Window(0, Some(draws[|draws| - 1].drawAward.blockNumber)))
  {
    var r := ChartSeries(draws, manualEvents, backstopEvents, pending, firstDrawOpenedAt, currentTimestamp);
    var n := |draws|;
    forall k | 0 <= k <= n + 1 {
      ReserveChart.SeriesPoints(draws, manualEvents, backstopEvents, pending, firstDrawOpenedAt, currentTimestamp, k);
    }
    BackstopTotalPrefix(r, backstopEvents, draws, n);
    assert r[..n + 2] == r;
    assert r[..n + 2][..n + 1] == r[..n + 1];
    SumOverDrawWindows(backstopEvents, draws, n);
  }

  /** One token with 18 decimals, in smallest units. */
  const ONE_TOKEN: nat := 1_000_000_000_000_000_000

  /**
   A worked example: draw 5 awarded at block 1000 and time 500 after an
   auction reward of 2 tokens, an award reward of 1 and 3 left in reserve; a
   contribution of 1 token at block 900 and of half a token at block 1100; a
   pending reserve of 5 tokens.
   */
  lemma WorkedExample()
    ensures var r := ChartSeries(
        [ValidDraw(2 * ONE_TOKEN, DrawAwardTx(5, 1000, 500, ONE_TOKEN, 3 * ONE_TOKEN))],
        [LogEvent(900, ONE_TOKEN), LogEvent(1100, ONE_TOKEN / 2)], [],
        5 * ONE_TOKEN, 100, 2000);
      && |r| == 3
      && r[0].name == StartLabel(100)
      && r[1] == DataPoint(DrawLabel(5, 500), 0, 5 * ONE_TOKEN, ONE_TOKEN, 3 * ONE_TOKEN, 0, 3 * ONE_TOKEN)
      && r[2] == DataPoint(NowLabel(2000), 5 * ONE_TOKEN, 9 * ONE_TOKEN / 2, ONE_TOKEN / 2, 0, 0, 0)
  {
    var events := [LogEvent(900, ONE_TOKEN), LogEvent(1100, ONE_TOKEN / 2)];
    assert events[..1] == [LogEvent(900, ONE_TOKEN)];
    assert events[..1][..0] == [];
  }

  /**
   Liquidations are not clamped: a contribution larger than everything the
   draw paid out gives a negative figure.
   */
  lemma NegativeLiquidationsExample()
    ensures var r := ChartSeries(
        [ValidDraw(1, DrawAwardTx(1, 10, 20, 1, 0))], [LogEvent(5, 100)], [], 0, 1, 30);
      r[1].liquidations == -98 && r[2].liquidations == 0
  {
    var draws := [ValidDraw(1, DrawAwardTx(1, 10, 20, 1, 0))];
    var events := [LogEvent(5, 100)];
    ReserveChart.SeriesPoints(draws, events, [], 0, 1, 30, 1);
    ReserveChart.SeriesPoints(draws, events, [], 0, 1, 30, 2);
    assert events[..0] == [];
    assert WindowSum(events, DrawWindow(draws, 0)) == 100;
    assert WindowSum(events, DrawWindow(draws, 1)) == 0;
  }
}
