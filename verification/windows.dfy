/**
 Half-open block windows and the sums of event amounts that fall inside them.

 The reconciler walks the valid draws with a window `[minBlock, maxBlock)`:
 the window of draw `i` runs from the block of draw `i - 1` (block 0 for the
 first draw) up to, and not including, the block of draw `i`; after the last
 draw the window runs to `MAX_UINT_256`. With no valid draw at all the upper
 bound is `undefined`, and since a JavaScript comparison `block < undefined`
 is false, that window holds no block.
 */
module Windows {
  import opened Optional
  import opened Draws

  /** 2^256 - 1, the upper bound of the window after the last draw. */
  const MAX_UINT_256: nat := 0xFFFF_FFFF_FFFF_FFFF_FFFF_FFFF_FFFF_FFFF_FFFF_FFFF_FFFF_FFFF_FFFF_FFFF_FFFF_FFFF

  /** A manual-contribution or prize-backstop log: the block it landed in and the amount it moved. */
  datatype LogEvent = LogEvent(blockNumber: nat, amount: nat)

  /** `[minBlock, maxBlock)`; `None` is the undefined upper bound. */
  datatype Window = Window(minBlock: nat, maxBlock: Option<nat>)

  /** `isValidEvent`: the block is at least the lower bound and strictly below a defined upper bound. */
  function InWindow(w: Window, block: nat): (r: bool)
    ensures w.maxBlock.None? ==> !r
    ensures w.maxBlock.Some? && block == w.maxBlock.value ==> !r
    ensures block == w.minBlock ==> (r <==> w.maxBlock.Some? && w.minBlock < w.maxBlock.value)
    ensures block < w.minBlock ==> !r
    ensures w.maxBlock.Some? && w.minBlock <= block < w.maxBlock.value ==> r
    ensures w.maxBlock.Some? && block > w.maxBlock.value ==> !r
  {
    block >= w.minBlock && w.maxBlock.Some? && block < w.maxBlock.value
  }

  /** The sum of all amounts in `events`. */
  function TotalAmount(events: seq<LogEvent>): nat
    decreases |events|
  {
    if |events| == 0 then 0 else TotalAmount(events[..|events| - 1]) + events[|events| - 1].amount
  }

  /**
   The `reduce` of the source: amounts of the events inside `w`, added from
   the first event to the last.
   */
  function WindowSum(events: seq<LogEvent>, w: Window): (total: nat)
    ensures total <= TotalAmount(events)
    ensures w.maxBlock.None? ==> total == 0
    ensures (forall i :: 0 <= i < |events| ==> !InWindow(w, events[i].blockNumber)) ==> total == 0
    ensures (forall i :: 0 <= i < |events| ==> InWindow(w, events[i].blockNumber)) ==> total == TotalAmount(events)
    decreases |events|
  {
    if |events| == 0 then 0
    else
      var last := events[|events| - 1];
      WindowSum(events[..|events| - 1], w) + (if InWindow(w, last.blockNumber) then last.amount else 0)
  }

  /** Two adjacent windows `[a, b)` and `[b, c)` together hold exactly the events of `[a, c)`. */
  lemma {:induction false} WindowSumSplit(events: seq<LogEvent>, a: nat, b: nat, c: nat)
    requires a <= b <= c
    ensures WindowSum(events, Window(a, Some(b))) + WindowSum(events, Window(b, Some(c)))
         == WindowSum(events, Window(a, Some(c)))
    decreases |events|
  {
    if |events| > 0 {
      WindowSumSplit(events[..|events| - 1], a, b, c);
    }
  }

  /**
   The window the reconciler holds at step `i` of its walk: draw `i`'s window
   for `i < |draws|`, and for `i == |draws|` the window left over for the
   `Now` point.
   */
  function DrawWindow(draws: seq<ValidDraw>, i: nat): (w: Window)
    requires i <= |draws|
    ensures w.maxBlock.None? <==> |draws| == 0
    ensures i < |draws| ==> !InWindow(w, draws[i].drawAward.blockNumber)
  {
    Window(
      if i == 0 then 0 else draws[i - 1].drawAward.blockNumber,
      if i < |draws| then Some(draws[i].drawAward.blockNumber)
      else if |draws| == 0 then None
      else Some(MAX_UINT_256))
  }

  /** The windows start at block 0, each one ends where the next begins, and the last one is open. */
  lemma WindowsContiguous(draws: seq<ValidDraw>)
    ensures DrawWindow(draws, 0).minBlock == 0
    ensures forall i :: 0 <= i < |draws| ==> DrawWindow(draws, i).maxBlock == Some(DrawWindow(draws, i + 1).minBlock)
    ensures |draws| > 0 ==> DrawWindow(draws, |draws|) == Window(draws[|draws| - 1].drawAward.blockNumber, Some(MAX_UINT_256))
    ensures |draws| == 0 ==> DrawWindow(draws, 0) == Window(0, None)
  {
  }

  /** Draw blocks that fit below the bound of the final window. */
  predicate BlocksBounded(draws: seq<ValidDraw>) {
    forall i :: 0 <= i < |draws| ==> draws[i].drawAward.blockNumber <= MAX_UINT_256
  }

  /** With ascending draws no block lies in two windows. */
  lemma WindowsDisjoint(draws: seq<ValidDraw>, i: nat, j: nat, block: nat)
    requires BlocksAscending(draws)
    requires i <= |draws| && j <= |draws|
    requires InWindow(DrawWindow(draws, i), block) && InWindow(DrawWindow(draws, j), block)
    ensures i == j
  {
  }

  lemma {:induction false} WindowsCoverFrom(draws: seq<ValidDraw>, k: nat, block: nat)
    requires |draws| > 0
    requires k <= |draws|
    requires block >= DrawWindow(draws, k).minBlock && block < MAX_UINT_256
    ensures exists i :: k <= i <= |draws| && InWindow(DrawWindow(draws, i), block)
    decreases |draws| - k
  {
    if k == |draws| || block < draws[k].drawAward.blockNumber {
      assert InWindow(DrawWindow(draws, k), block);
    } else {
      WindowsCoverFrom(draws, k + 1, block);
    }
  }

  /** Once there is a valid draw, every block below `MAX_UINT_256` lies in some window. */
  lemma WindowsCover(draws: seq<ValidDraw>, block: nat)
    requires |draws| > 0
    requires block < MAX_UINT_256
    ensures exists i :: 0 <= i <= |draws| && InWindow(DrawWindow(draws, i), block)
  {
    WindowsCoverFrom(draws, 0, block);
  }

  /** Without a valid draw the single window holds no block. */
  lemma NoDrawsNoWindow(block: nat)
    ensures !InWindow(DrawWindow([], 0), block)
  {
  }

  /**
   An event in the very block of draw `i` is not counted for draw `i`; it is
   counted in the next window when that window is not empty.
   */
  lemma EventAtDrawBlockCountsNext(draws: seq<ValidDraw>, i: nat)
    requires i < |draws|
    requires i + 1 < |draws| ==> draws[i].drawAward.blockNumber < draws[i + 1].drawAward.blockNumber
    requires i + 1 == |draws| ==> draws[i].drawAward.blockNumber < MAX_UINT_256
    ensures !InWindow(DrawWindow(draws, i), draws[i].drawAward.blockNumber)
    ensures InWindow(DrawWindow(draws, i + 1), draws[i].drawAward.blockNumber)
  {
  }

  /** The amounts of the first `k` windows of the walk, added up. */
  function SumOverWindows(events: seq<LogEvent>, draws: seq<ValidDraw>, k: nat): nat
    requires k <= |draws| + 1
  {
    if k == 0 then 0 else SumOverWindows(events, draws, k - 1) + WindowSum(events, DrawWindow(draws, k - 1))
  }

  /** The windows of the first `k` draws together hold exactly the events below draw `k - 1`'s block. */
  lemma {:induction false} SumOverDrawWindows(events: seq<LogEvent>, draws: seq<ValidDraw>, k: nat)
    requires BlocksAscending(draws)
    requires 1 <= k <= |draws|
    ensures SumOverWindows(events, draws, k) == WindowSum(events, Window(0, Some(draws[k - 1].drawAward.blockNumber)))
    decreases k
  {
    if k > 1 {
      SumOverDrawWindows(events, draws, k - 1);
      WindowSumSplit(events, 0, draws[k - 2].drawAward.blockNumber, draws[k - 1].drawAward.blockNumber);
    }
  }

  /**
   No double counting: with ascending, bounded draws, the windows of the walk
   (the draws' and the final one) together hold every event below
   `MAX_UINT_256`, each once.
   */
  lemma WindowsPartitionSum(events: seq<LogEvent>, draws: seq<ValidDraw>)
    requires |draws| > 0 && BlocksAscending(draws) && BlocksBounded(draws)
    ensures SumOverWindows(events, draws, |draws| + 1) == WindowSum(events, Window(0, Some(MAX_UINT_256)))
  {
    var n := |draws|;
    SumOverDrawWindows(events, draws, n);
    WindowSumSplit(events, 0, draws[n - 1].drawAward.blockNumber, MAX_UINT_256);
  }
}
