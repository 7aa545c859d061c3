/**
 The draw-transactions list and the filter that keeps the draws the reserve
 chart can reconcile.

 Each entry pairs the RNG-auction transaction of a draw with the award
 transaction that closed it. A draw counts only when the auction reward is
 known and the award transaction is present; every other entry is dropped
 without leaving a trace in the chart.
 */
module Draws {
  import opened Optional

  /** The transaction that awarded a draw: its id, where and when it landed, and what it paid. */
  datatype DrawAwardTx = DrawAwardTx(drawId: nat, blockNumber: nat, timestamp: nat, reward: nat, remainingReserve: nat)

  /** The RNG-auction transaction of a draw; the reward is absent when it is not known. */
  datatype RngAuctionTx = RngAuctionTx(reward: Option<nat>)

  /** One entry of the draw-transactions list; the award is absent for a draw not yet awarded. */
  datatype RngTxs = RngTxs(rngAuction: RngAuctionTx, drawAward: Option<DrawAwardTx>)

  /** An entry that passed the filter, with both optional parts known to be present. */
  datatype ValidDraw = ValidDraw(auctionReward: nat, drawAward: DrawAwardTx)

  predicate IsValid(t: RngTxs) {
    t.rngAuction.reward.Some? && t.drawAward.Some?
  }

  function Narrow(t: RngTxs): ValidDraw
    requires IsValid(t)
  {
    ValidDraw(t.rngAuction.reward.value, t.drawAward.value)
  }

  /** The entry a valid draw came from; `Narrow` and `Widen` are inverse on valid entries. */
  function Widen(v: ValidDraw): (t: RngTxs)
    ensures IsValid(t) && Narrow(t) == v
  {
    RngTxs(RngAuctionTx(Some(v.auctionReward)), Some(v.drawAward))
  }

  /** The valid entries of `txs`, in input order. */
  function ValidDraws(txs: seq<RngTxs>): (r: seq<ValidDraw>)
    ensures |r| <= |txs|
    ensures forall v :: v in r ==> Widen(v) in txs
    ensures forall t :: t in txs && IsValid(t) ==> Narrow(t) in r
    ensures |r| == |txs| <==> forall i :: 0 <= i < |txs| ==> IsValid(txs[i])
    decreases |txs|
  {
    if |txs| == 0 then []
    else
      var rest := ValidDraws(txs[1..]);
      assert forall t :: t in txs[1..] ==> t in txs;
      assert forall t :: t in txs ==> t == txs[0] || t in txs[1..];
      assert forall i :: 1 <= i < |txs| ==> txs[i] == txs[1..][i - 1];
      if IsValid(txs[0]) then [Narrow(txs[0])] + rest else rest
  }

  /** The filter distributes over concatenation, so it keeps the input order. */
  lemma {:induction false} ValidDrawsAppend(a: seq<RngTxs>, b: seq<RngTxs>)
    ensures ValidDraws(a + b) == ValidDraws(a) + ValidDraws(b)
    decreases |a|
  {
    if |a| > 0 {
      assert (a + b)[1..] == a[1..] + b;
      ValidDrawsAppend(a[1..], b);
    } else {
      assert a + b == b;
    }
  }

  /** One entry contributes its narrowed form when valid, and nothing otherwise. */
  lemma ValidDrawsSingle(t: RngTxs)
    ensures ValidDraws([t]) == if IsValid(t) then [Narrow(t)] else []
  {
    assert [t][1..] == [];
  }

  /** Nothing survives the filter exactly when no entry is valid. */
  lemma {:induction false} ValidDrawsEmpty(txs: seq<RngTxs>)
    ensures ValidDraws(txs) == [] <==> forall t :: t in txs ==> !IsValid(t)
    decreases |txs|
  {
    if |txs| > 0 {
      ValidDrawsEmpty(txs[1..]);
      assert forall t :: t in txs <==> t == txs[0] || t in txs[1..];
    }
  }

  /** Valid draws whose award blocks never decrease along the list. */
  predicate BlocksAscending(draws: seq<ValidDraw>) {
    forall i, j :: 0 <= i < j < |draws| ==> draws[i].drawAward.blockNumber <= draws[j].drawAward.blockNumber
  }
}
