# Reserve chart reconciler

This project models the prize-pool reserve chart of the analytics dashboard. The chart turns four inputs into one series of data points:
- the list of draw transactions, where each RNG-auction transaction is paired with the award transaction that closed the draw;
- the manual-contribution event log;
- the prize-backstop event log;
- the pending-reserve snapshot.

The series starts with a synthetic `Start` point with every amount 0. It then has one point per valid draw and ends with a synthetic `Now` point.

A draw is valid when its auction reward is known and its award transaction is present. Each draw point reconciles the reserve over a half-open block window `[minBlock, maxBlock)`:
- `manual` is the sum of the manual contributions logged in the window;
- `prizeBackstops` is the sum of the backstops logged in the window;
- `rewards` is the auction reward plus the award reward;
- `buyback` is the reserve left after the award;
- `liquidations` is the balancing figure `rewards + prizeBackstops + buyback - manual`. It may be negative.

The window of draw `i` runs from the previous valid draw's block (block 0 for the first draw) up to, and not including, draw `i`'s own block. After the last draw the window runs up to `MAX_UINT_256`. If no draw is valid, the upper bound is JavaScript `undefined`. No block compares below `undefined`, so then nothing is counted.

The `Now` point's `reserve` is the pending reserve. Its `manual` is the sum of the manual contributions in the final window, and its `liquidations` is `reserve - manual`.

Modules:
- `Optional` (`optional.dfy`): `Option`, which stands for a JavaScript value that may be `undefined`.
- `Labels` (`labels.dfy`):
  - point names `Start-<t>`, `<drawId>-<t>` and `Now-<t>`;
  - decimal rendering and parsing;
  - `split`/`join` on `-`;
  - the tooltip label formatter.
- `Draws` (`draws.dfy`): the transaction records, the valid-draw filter and the ascending-blocks hypothesis.
- `Windows` (`windows.dfy`):
  - event logs and the half-open window;
  - the per-window `reduce`;
  - the walk's windows and how they tile the block line.
- `ReserveChart` (`reserve_chart.dfy`):
  - data points;
  - the reference definition `ChartSeries`;
  - the imperative replay `ReplayChart`, which carries `minBlock`/`maxBlock` through a loop whose invariant ties them to `DrawWindow`;
  - the readiness guard `ChartData`.
- `SeriesProperties` (`series_properties.dfy`): shape, windows, the no-draw case, dropped draws, no double counting, and worked examples.

Amounts are exact integers in the prize token's smallest unit.

Two details of the source are kept as written:
- `minBlock` is a plain block number. It is only ever assigned from `maxBlock` inside the loop, where `maxBlock` is always defined. `ReplayChart` proves this.
- The readiness guard tests the first-draw timestamp for truthiness. A timestamp of 0 therefore keeps the chart absent, like a missing input does.

## Model

| member | source | states |
|---|---|---|
| Labels.NatToString | apps/analytics/src/components/Charts/ReserveChart.tsx:102 | a rendered number is a non-empty run of decimal digits with no leading zero and never contains the `-` separator |
| Labels.ParseNatToString | apps/analytics/src/components/Charts/ReserveChart.tsx:193-194 | reading a rendered number back as a decimal gives the number itself |
| Labels.JsNumber | apps/analytics/src/components/Charts/ReserveChart.tsx:194 | numeric coercion of a label segment has a value exactly when the segment is all digits (so `+""` is a number), and it undoes the rendering of every number |
| Labels.Split | apps/analytics/src/components/Charts/ReserveChart.tsx:193 | splitting on `-` yields at least one part, no part holds the separator, and joining the parts gives the input back |
| Labels.SplitJoin | apps/analytics/src/components/Charts/ReserveChart.tsx:193 | splitting a join of separator-free parts returns exactly those parts |
| Labels.LabelSplits | apps/analytics/src/components/Charts/ReserveChart.tsx:193 | a `<head>-<t>` name with a separator-free head splits into the head and the rendered timestamp |
| Labels.DrawLabelRoundTrip | apps/analytics/src/components/Charts/ReserveChart.tsx:100-102 | a draw point's name splits into exactly two segments that parse back to the draw id and the award time |
| Labels.FormatTooltipLabel | apps/analytics/src/components/Charts/ReserveChart.tsx:192-195 | the tooltip names a draw exactly when the first segment coerces to a number, and otherwise shows that segment unchanged |
| Labels.TooltipOfDrawLabel | apps/analytics/src/components/Charts/ReserveChart.tsx:192-195 | the tooltip of any draw point shows that draw's id and award timestamp |
| Labels.TooltipOfMarkerLabels | apps/analytics/src/components/Charts/ReserveChart.tsx:192-195 | the tooltips of the `Start` and `Now` points show just `Start` and `Now` |
| Draws.Widen | apps/analytics/src/components/Charts/ReserveChart.tsx:77-80 | the narrowing cast of a valid entry is invertible: widening a valid draw gives a valid entry that narrows back to it |
| Draws.ValidDraws | apps/analytics/src/components/Charts/ReserveChart.tsx:75-80 | the filter keeps exactly the entries with a defined auction reward and a present award, never grows the list, and keeps its length only when every entry is valid |
| Draws.ValidDrawsAppend | apps/analytics/src/components/Charts/ReserveChart.tsx:75-80 | the filter distributes over concatenation, so surviving draws keep their input order |
| Draws.ValidDrawsSingle | apps/analytics/src/components/Charts/ReserveChart.tsx:75-76 | one entry survives as itself when valid and vanishes otherwise |
| Draws.ValidDrawsEmpty | apps/analytics/src/components/Charts/ReserveChart.tsx:75-80 | no draw survives the filter exactly when no entry is valid |
| Windows.InWindow | apps/analytics/src/components/Charts/ReserveChart.tsx:85-87 | `isValidEvent`: an undefined upper bound admits no block; with a defined upper bound a block is inside exactly when it is at least the lower bound and strictly below the upper bound, so the upper bound itself is never inside and the lower bound is inside exactly when the window is non-empty |
| Windows.DrawWindow | apps/analytics/src/components/Charts/ReserveChart.tsx:82-83 | the `minBlock`/`maxBlock` state at each step of the walk: the upper bound is undefined exactly when there is no valid draw, and a draw's own block is never inside its window |
| Windows.WindowSum | apps/analytics/src/components/Charts/ReserveChart.tsx:105-107 | a window's sum is at most the log's total, is 0 when the upper bound is undefined or no event is inside, and is the total when every event is inside |
| Windows.WindowSumSplit | apps/analytics/src/components/Charts/ReserveChart.tsx:85-87 | the half-open windows `[a, b)` and `[b, c)` together count exactly the events of `[a, c)` |
| Windows.WindowsContiguous | apps/analytics/src/components/Charts/ReserveChart.tsx:82-83 | the walk's first window starts at block 0, each window ends where the next begins, and the final window ends at `MAX_UINT_256`, or is undefined with no draws |
| Windows.WindowsDisjoint | apps/analytics/src/components/Charts/ReserveChart.tsx:85-87 | with ascending draw blocks no block lies in two of the walk's windows |
| Windows.WindowsCover | apps/analytics/src/components/Charts/ReserveChart.tsx:129-130 | once there is a valid draw, every block below `MAX_UINT_256` lies in one of the walk's windows |
| Windows.NoDrawsNoWindow | apps/analytics/src/components/Charts/ReserveChart.tsx:83-86 | with no valid draw the only window holds no block |
| Windows.EventAtDrawBlockCountsNext | apps/analytics/src/components/Charts/ReserveChart.tsx:86 | an event in a draw's own block is excluded from that draw's window, and belongs to the next window when the next draw's block is strictly higher (or, after the last draw, when the block is below `MAX_UINT_256`) |
| Windows.SumOverDrawWindows | apps/analytics/src/components/Charts/ReserveChart.tsx:99-131 | with ascending draw blocks, the windows of the first `k` draws together count exactly the events below draw `k - 1`'s block |
| Windows.WindowsPartitionSum | apps/analytics/src/components/Charts/ReserveChart.tsx:129-136 | with at least one valid draw and ascending draw blocks no larger than `MAX_UINT_256`, the draws' windows and the final window together count every event below `MAX_UINT_256` exactly once |
| ReserveChart.StartPoint | apps/analytics/src/components/Charts/ReserveChart.tsx:89-97 | the synthetic first point has every numeric field 0, so it balances trivially |
| ReserveChart.DrawPoint | apps/analytics/src/components/Charts/ReserveChart.tsx:105-127 | a draw point balances (`liquidations + manual = rewards + prizeBackstops + buyback`), has `reserve` 0 and non-negative amounts, and has negative liquidations exactly when manual inflow exceeds everything paid out |
| ReserveChart.NowPoint | apps/analytics/src/components/Charts/ReserveChart.tsx:133-147 | the `Now` point carries the pending reserve and the given manual amount, balances (`liquidations + manual = reserve`), has zero rewards, backstops and buyback, and goes negative exactly when manual inflow exceeds the pending reserve |
| ReserveChart.ChartSeries | apps/analytics/src/components/Charts/ReserveChart.tsx:89-147 | the series has two more points than there are valid draws, and every point balances |
| ReserveChart.SumValidEvents | apps/analytics/src/components/Charts/ReserveChart.tsx:106 | the left-to-right reduce over a log with the current window equals the window's sum |
| ReserveChart.DrawStep | apps/analytics/src/components/Charts/ReserveChart.tsx:99-130 | one iteration of the walk turns the window it holds for draw `i` into draw `i`'s point and into the window for draw `i + 1` |
| ReserveChart.ReplayChart | apps/analytics/src/components/Charts/ReserveChart.tsx:69-149 | the filter-then-walk with a moving `[minBlock, maxBlock)` builds exactly the reference series of the valid draws |
| ReserveChart.ChartData | apps/analytics/src/components/Charts/ReserveChart.tsx:59-68 | the chart data is absent exactly while some input is missing, the draw list is not fetched, or the first-draw timestamp is falsy; otherwise it is the full series |
| ReserveChart.SeriesPoints | apps/analytics/src/components/Charts/ReserveChart.tsx:89-147 | point 0 is the start point, point `k` is the point of valid draw `k - 1`, and the last point is the `Now` point over the final window |
| SeriesProperties.SeriesShape | apps/analytics/src/components/Charts/ReserveChart.tsx:89-147 | `Start-<t>` comes first with every amount 0; each valid draw follows in order, named `<drawId>-<awardedAt>` with its rewards, buyback, zero reserve and balance; `Now-<t>` comes last with the pending reserve, `liquidations = reserve - manual` and no rewards, backstops or buyback |
| SeriesProperties.SeriesWindows | apps/analytics/src/components/Charts/ReserveChart.tsx:82-87 | draw `i`'s manual and backstop sums cover exactly the blocks from the previous valid draw's block (0 for the first) up to but excluding its own, and `Now` covers the last draw's block up to `MAX_UINT_256` |
| SeriesProperties.NoValidDraws | apps/analytics/src/components/Charts/ReserveChart.tsx:134-137 | with no valid draw the series is `Start` and `Now` only, and `Now` counts no manual contribution and shows the whole pending reserve as liquidations |
| SeriesProperties.DroppedDrawLeavesNoGap | apps/analytics/src/components/Charts/ReserveChart.tsx:75-80 | an invalid entry anywhere in the draw list leaves the series exactly as it would be without that entry |
| SeriesProperties.ManualPartition | apps/analytics/src/components/Charts/ReserveChart.tsx:99-136 | with ascending draw blocks, the manual amounts of all points add up to the manual contributions below `MAX_UINT_256`, each counted once |
| SeriesProperties.BackstopsUpToLastDraw | apps/analytics/src/components/Charts/ReserveChart.tsx:111-113 | with ascending draw blocks, the backstop amounts of all points add up to the backstops below the last draw's block, so later backstops appear nowhere |
| SeriesProperties.WorkedExample | apps/analytics/src/components/Charts/ReserveChart.tsx:89-147 | one draw with two contributions on either side of its block gives the draw point manual 1, rewards 3, buyback 3, liquidations 5, and the `Now` point reserve 5, manual 0.5, liquidations 4.5 (in tokens) |
| SeriesProperties.NegativeLiquidationsExample | apps/analytics/src/components/Charts/ReserveChart.tsx:117 | a contribution larger than the draw's payouts gives negative liquidations, and the value is not clamped |

## Left out

- React hooks and data fetching (reserve, draw transactions, event logs, first-draw timestamp, prize token, clock atom) are left out. Their results are plain inputs of `ChartInputs`, and the clock is a parameter.
- The `useMemo` dependency list and its caching are left out. It omits the two event logs, the prize token and `isFetchedRngTxs`, so in the source a change to those alone does not recompute the chart. The model recomputes from all inputs.
- The float conversion with the token's decimals (`formatUnits`, `parseFloat`) and float subtraction are left out. All sums and differences are exact integers in smallest units, and the token keeps only its `decimals`.
- Rendering is left out because it is presentation or a library call:
  - the line chart, the reserve card and the axis tick formatter;
  - `getSimpleDate` and `formatNumberForDisplay`.
- The tooltip carries the draw id segment and the parsed timestamp instead of the formatted date string.
- `apps/vault-factory/src/constants/config.ts` is left out. It holds static network, address and wallet tables and environment reads, with no behaviour to model.
- Labels.JsNumber: models JavaScript's numeric coercion only for the empty string and plain decimal digits. JavaScript also accepts whitespace, signs, decimal points, exponents, hex and `Infinity`. The label segments it reads after the split on `-` never contain any of those.
- Labels.NatToString: does not model the exponent notation JavaScript uses for numbers of 10^21 and above. Draw ids and timestamps stay far below that.
- The other fields of the RNG-auction and award transactions are not modelled, because the chart does not read them.
- Block numbers and amounts are unbounded naturals, not 64-bit and 256-bit words. The chart only adds and compares them, and the 256-bit bound appears only as the final window's upper bound.
- SeriesProperties.ManualPartition: holds only under three hypotheses. The source neither sorts the draws nor checks their order, so it needs ascending draw blocks. It also needs draw blocks no larger than `MAX_UINT_256`. It also needs at least one valid draw: with none, no contribution is counted at all (see `NoValidDraws`).
- SeriesProperties.BackstopsUpToLastDraw: holds only when draw blocks are ascending, for the same reason.
- Windows.WindowsDisjoint: holds only when draw blocks are ascending, for the same reason.
- Idempotence on equal inputs is not stated separately, because every member is a pure function of its inputs.
- With no valid draw the upper bound stays `undefined`, so no contribution is counted, not even those below `MAX_UINT_256` (`SeriesProperties.NoValidDraws`). The model keeps this.
