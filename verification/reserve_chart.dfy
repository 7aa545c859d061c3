/**
 The reserve chart's series: one synthetic `Start` point, one point per valid
 draw, one synthetic `Now` point.

 For a draw, `manual` and `prizeBackstops` are the contribution and backstop
 amounts logged inside the draw's window, `rewards` is what the auction and
 the award paid out, `buyback` is the reserve left after the award, and
 `liquidations` is the balancing figure that makes inflows equal outflows; it
 may be negative. For `Now`, `reserve` is the pending reserve and
 `liquidations` is what of it the manual contributions since the last draw do
 not explain. Amounts are exact integers in the prize token's smallest unit.
 */
module ReserveChart {
  import opened Optional
  import opened Labels
  import opened Draws
  import opened Windows

  datatype DataPoint = DataPoint(
    name: string,
    reserve: int,
    liquidations: int,
    manual: int,
    rewards: int,
    prizeBackstops: int,
    buyback: int)

  /** The accounting identity every point keeps: what came in equals what went out or stayed. */
  predicate Balanced(p: DataPoint) {
    p.liquidations + p.manual == p.reserve + p.rewards + p.prizeBackstops + p.buyback
  }

  /** Every field other than `liquidations` is a sum of token amounts. */
  predicate AmountsNonNegative(p: DataPoint) {
    p.reserve >= 0 && p.manual >= 0 && p.rewards >= 0 && p.prizeBackstops >= 0 && p.buyback >= 0
  }

  /** The synthetic first point: every amount 0. */
  function StartPoint(firstDrawOpenedAt: nat): (p: DataPoint)
    ensures Balanced(p) && AmountsNonNegative(p)
    ensures p.reserve == 0 && p.liquidations == 0 && p.manual == 0
    ensures p.rewards == 0 && p.prizeBackstops == 0 && p.buyback == 0
  {
    DataPoint(StartLabel(firstDrawOpenedAt), 0, 0, 0, 0, 0, 0)
  }

  /** The point of one draw, given the manual and backstop amounts of its window. */
  function DrawPoint(v: ValidDraw, manual: nat, prizeBackstops: nat): (p: DataPoint)
    ensures Balanced(p) && AmountsNonNegative(p)
    ensures p.reserve == 0 && p.manual == manual && p.prizeBackstops == prizeBackstops
    ensures p.liquidations < 0 <==> manual > v.auctionReward + v.drawAward.reward + prizeBackstops + v.drawAward.remainingReserve
  {
    var rewards := v.auctionReward + v.drawAward.reward;
    var buyback := v.drawAward.remainingReserve;
    DataPoint(DrawLabel(v.drawAward.drawId, v.drawAward.timestamp), 0,
              rewards + prizeBackstops + buyback - manual, manual, rewards, prizeBackstops, buyback)
  }

  /** The point for the present, given the pending reserve and the manual amount since the last draw. */
  function NowPoint(pending: nat, manual: nat, currentTimestamp: nat): (p: DataPoint)
    ensures Balanced(p) && AmountsNonNegative(p)
    ensures p.reserve == pending && p.manual == manual
    ensures p.rewards == 0 && p.prizeBackstops == 0 && p.buyback == 0
    ensures p.liquidations < 0 <==> manual > pending
  {
    DataPoint(NowLabel(currentTimestamp), pending, pending - manual, manual, 0, 0, 0)
  }

  /** Draw `i`'s point, with the sums taken over draw `i`'s window. */
  function DrawPointAt(draws: seq<ValidDraw>, i: nat, manualEvents: seq<LogEvent>, backstopEvents: seq<LogEvent>): DataPoint
    requires i < |draws|
  {
    var w := DrawWindow(draws, i);
    DrawPoint(draws[i], WindowSum(manualEvents, w), WindowSum(backstopEvents, w))
  }

  /** The points of the first `k` valid draws, in order. */
  function DrawPoints(draws: seq<ValidDraw>, manualEvents: seq<LogEvent>, backstopEvents: seq<LogEvent>, k: nat): (ps: seq<DataPoint>)
    requires k <= |draws|
    ensures |ps| == k
    ensures forall i :: 0 <= i < k ==> ps[i] == DrawPointAt(draws, i, manualEvents, backstopEvents)
    decreases k
  {
    if k == 0 then [] else DrawPoints(draws, manualEvents, backstopEvents, k - 1) + [DrawPointAt(draws, k - 1, manualEvents, backstopEvents)]
  }

  /** The whole series, as a reference definition of what the walk builds. */
  function ChartSeries(
    draws: seq<ValidDraw>, manualEvents: seq<LogEvent>, backstopEvents: seq<LogEvent>,
    pending: nat, firstDrawOpenedAt: nat, currentTimestamp: nat): (r: seq<DataPoint>)
    ensures |r| == |draws| + 2
    ensures forall k :: 0 <= k < |r| ==> Balanced(r[k])
  {
    [StartPoint(firstDrawOpenedAt)]
    + DrawPoints(draws, manualEvents, backstopEvents, |draws|)
    + [NowPoint(pending, WindowSum(manualEvents, DrawWindow(draws, |draws|)), currentTimestamp)]
  }

  /** The points of the series, one by one, in terms of the point builders. */
  lemma SeriesPoints(
    draws: seq<ValidDraw>, manualEvents: seq<LogEvent>, backstopEvents: seq<LogEvent>,
    pending: nat, firstDrawOpenedAt: nat, currentTimestamp: nat, k: nat)
    requires k <= |draws| + 1
    ensures var r := ChartSeries(draws, manualEvents, backstopEvents, pending, firstDrawOpenedAt, currentTimestamp);
      r[k] == if k == 0 then StartPoint(firstDrawOpenedAt)
              else if k <= |draws| then DrawPointAt(draws, k - 1, manualEvents, backstopEvents)
              else NowPoint(pending, WindowSum(manualEvents, DrawWindow(draws, |draws|)), currentTimestamp)
  {
  }

  /** The reduce over one event log with the current window, replayed as a loop. */
  method SumValidEvents(events: seq<LogEvent>, minBlock: nat, maxBlock: Option<nat>) returns (total: nat)
    ensures total == WindowSum(events, Window(minBlock, maxBlock))
  {
    total := 0;
    var k := 0;
    while k < |events|
      invariant k <= |events|
      invariant total == WindowSum(events[..k], Window(minBlock, maxBlock))
    {
      var e := events[k];
      assert events[..k + 1][..k] == events[..k];
      total := total + (if InWindow(Window(minBlock, maxBlock), e.blockNumber) then e.amount else 0);
      k := k + 1;
    }
    assert events[..k] == events;
  }

  /**
   One step of the walk over the valid draws: the point of draw `i`, computed
   with the window the walk holds, and the window for the next step.
   */
  method DrawStep(
    validRngTxs: seq<ValidDraw>, i: nat, minBlock: nat, maxBlock: Option<nat>,
    manualEvents: seq<LogEvent>, backstopEvents: seq<LogEvent>)
    returns (point: DataPoint, nextMin: nat, nextMax: Option<nat>)
    requires i < |validRngTxs|
    requires Window(minBlock, maxBlock) == DrawWindow(validRngTxs, i)
    ensures point == DrawPointAt(validRngTxs, i, manualEvents, backstopEvents)
    ensures Window(nextMin, nextMax) == DrawWindow(validRngTxs, i + 1)
  {
    var txs := validRngTxs[i];
    var name := DrawLabel(txs.drawAward.drawId, txs.drawAward.timestamp);
    var manual := SumValidEvents(manualEvents, minBlock, maxBlock);
    var rewards := txs.auctionReward + txs.drawAward.reward;
    var prizeBackstops := SumValidEvents(backstopEvents, minBlock, maxBlock);
    var buyback := txs.drawAward.remainingReserve;
    var liquidations := rewards + prizeBackstops + buyback - manual;
    point := DataPoint(name, 0, liquidations, manual, rewards, prizeBackstops, buyback);
    nextMin := maxBlock.value;
    nextMax := if i + 1 < |validRngTxs| then Some(validRngTxs[i + 1].drawAward.blockNumber) else Some(MAX_UINT_256);
  }

  /**
   The body of the chart computation once every input is loaded: filter the
   draws, walk them carrying `minBlock`/`maxBlock`, then add the `Now` point.
   */
  method ReplayChart(
    rngTxs: seq<RngTxs>, manualEvents: seq<LogEvent>, backstopEvents: seq<LogEvent>,
    pending: nat, firstDrawOpenedAt: nat, currentTimestamp: nat) returns (data: seq<DataPoint>)
    ensures data == ChartSeries(ValidDraws(rngTxs), manualEvents, backstopEvents, pending, firstDrawOpenedAt, currentTimestamp)
  {
    var validRngTxs := ValidDraws(rngTxs);
    var minBlock: nat := 0;
    var maxBlock: Option<nat> := if |validRngTxs| > 0 then Some(validRngTxs[0].drawAward.blockNumber) else None;
    data := [StartPoint(firstDrawOpenedAt)];
    var i := 0;
    while i < |validRngTxs|
      invariant i <= |validRngTxs|
      invariant Window(minBlock, maxBlock) == DrawWindow(validRngTxs, i)
      invariant |data| == i + 1 && data[0] == StartPoint(firstDrawOpenedAt)
      invariant forall j :: 0 <= j < i ==> data[j + 1] == DrawPointAt(validRngTxs, j, manualEvents, backstopEvents)
    {
      var point, nextMin, nextMax := DrawStep(validRngTxs, i, minBlock, maxBlock, manualEvents, backstopEvents);
      ghost var before := data;
      data := data + [point];
      assert forall j :: 0 <= j <= i ==> data[j] == before[j];
      minBlock, maxBlock := nextMin, nextMax;
      i := i + 1;
    }
    var currentManual := SumValidEvents(manualEvents, minBlock, maxBlock);
    var currentLiquidations := pending - currentManual;
    var now := DataPoint(NowLabel(currentTimestamp), pending, currentLiquidations, currentManual, 0, 0, 0);
    assert now == NowPoint(pending, WindowSum(manualEvents, DrawWindow(validRngTxs, |validRngTxs|)), currentTimestamp);
    data := data + [now];
    ghost var spec := ChartSeries(validRngTxs, manualEvents, backstopEvents, pending, firstDrawOpenedAt, currentTimestamp);
    forall k | 0 <= k < |data|
      ensures data[k] == spec[k]
    {
      SeriesPoints(validRngTxs, manualEvents, backstopEvents, pending, firstDrawOpenedAt, currentTimestamp, k);
    }
  }

  /** The prize token, of which the model keeps only the decimal precision. */
  datatype TokenData = TokenData(decimals: nat)

  datatype ReserveSnapshot = ReserveSnapshot(pending: nat)

  /** The inputs of the chart; `None` is a query whose data has not arrived. */
  datatype ChartInputs = ChartInputs(
    reserve: Option<ReserveSnapshot>,
    rngTxs: Option<seq<RngTxs>>,
    isFetchedRngTxs: bool,
    firstDrawOpenedAt: Option<nat>,
    manualContributionEvents: Option<seq<LogEvent>>,
    prizeBackstopEvents: Option<seq<LogEvent>>,
    prizeToken: Option<TokenData>,
    currentTimestamp: nat)

  /**
   Whether the guard of the computation lets it run: every query has data and
   the first-draw timestamp is truthy, which a timestamp of 0 is not.
   */
  predicate Ready(inputs: ChartInputs) {
    && inputs.reserve.Some?
    && inputs.rngTxs.Some?
    && inputs.isFetchedRngTxs
    && inputs.firstDrawOpenedAt.Some? && inputs.firstDrawOpenedAt.value != 0
    && inputs.manualContributionEvents.Some?
    && inputs.prizeBackstopEvents.Some?
    && inputs.prizeToken.Some?
  }

  /** The chart data: absent until the inputs are ready, the full series afterwards. */
  method ChartData(inputs: ChartInputs) returns (r: Option<seq<DataPoint>>)
    ensures r.None? <==> !Ready(inputs)
    ensures r.Some? ==> r.value == ChartSeries(
      ValidDraws(inputs.rngTxs.value), inputs.manualContributionEvents.value, inputs.prizeBackstopEvents.value,
      inputs.reserve.value.pending, inputs.firstDrawOpenedAt.value, inputs.currentTimestamp)
  {
    if Ready(inputs) {
      var data := ReplayChart(
        inputs.rngTxs.value, inputs.manualContributionEvents.value, inputs.prizeBackstopEvents.value,
        inputs.reserve.value.pending, inputs.firstDrawOpenedAt.value, inputs.currentTimestamp);
      r := Some(data);
    } else {
      r := None;
    }
  }
}
