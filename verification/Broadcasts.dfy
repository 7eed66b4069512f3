/**
 * When a transaction is broadcast, and when a trade becomes pending: exactly
 * when every input is signed, and exactly with a broadcast or the taker's signature.
 */
module Broadcasts {
  import opened Chain
  import opened Checker
  import opened Orders
  import opened Psbts
  import opened TradeRules
  import opened TradeRuns
  import opened Wrappers

  /**
   * Both PSBTs of a trade are there, for one transaction, and each of its inputs
   * is signed: on our own PSBT, or on either if we buy and combine them.
   */
  predicate EveryInputSigned(me: string, t: TradeState) {
    && t.ourPsbt.Some? && t.theirPsbt.Some? && t.theirPsbt.value.Encoded?
    && var (ours, theirs) := (t.ourPsbt.value, t.theirPsbt.value.psbt);
    && theirs.tx == ours.tx
    && forall i :: 0 <= i < |ours.tx.vin| ==>
         ours.inputs[i].signed || (GetOrderType(me, t) == Bid && theirs.inputs[i].signed)
  }

  /** Finalising and broadcasting work, and combining does for PSBTs of one transaction. */
  ghost predicate CallsWork(rpc: Rpc) {
    rpc.finalise && rpc.broadcast && forall p: Psbt, q: Psbt :: p.tx == q.tx ==> rpc.combine(p, q).Some?
  }

  lemma FinishBroadcasts(w: World, me: string, t: TradeState, locked: set<OutPoint>, rpc: Rpc,
                         verified: Option<OutPoint>)
    requires t.ourPsbt.Some? && Lawful(w, me, locked, rpc)
    requires GetOrderType(me, t) == Ask ==> SellerSigned(w, me, t)
    ensures var r := Finish(me, t, locked, rpc, verified);
            && (r.broadcast.Some? ==> GetRole(me, t) == Maker && EveryInputSigned(me, t))
            && (CallsWork(rpc) && GetRole(me, t) == Maker && EveryInputSigned(me, t) ==> r.broadcast.Some?)
            && (r.broadcast.Some? ==> r.broadcast.value == t.ourPsbt.value.tx)
            && (t.state == Initiated ==>
                  (r.trade.state == Pending <==>
                     if GetRole(me, t) == Maker then r.broadcast.Some?
                     else r.outcome.Sent? && r.outcome.msg.psbt.Some?))
  {
    hide OutputsVerdict, OnlyInputChanged, Funds, Joins;
  }

  /** Every input of a transaction that is broadcast is signed. */
  lemma BroadcastIsSigned(w: World, me: string, t: TradeState, locked: set<OutPoint>, rpc: Rpc)
    requires Consistent(w, me, t) && LawfulAnswers(w, me, t, locked, rpc)
    ensures var r := HasReply(w, me, t, locked, rpc);
            r.broadcast.Some? ==>
              && EveryInputSigned(me, r.trade) && r.broadcast.value == r.trade.ourPsbt.value.tx
              && GetRole(me, t) == Maker && r.trade.state == Pending
  {
    hide Lawful, BuyerSigned, BuyerBuilds;
    if t.state == Initiated && t.ourPsbt.Some? {
      FinishBroadcasts(w, me, t, locked, rpc, None);
    } else if t.state == Initiated && t.sellerData.Some? && t.theirPsbt.Some? && GetOrderType(me, t) == Ask {
      if SellerSigns(w, me, t, t.sellerData.value, t.theirPsbt.value, rpc).Ok? {
        SellerSignsWell(w, me, t, locked, rpc);
        var signed := SellerSigns(w, me, t, t.sellerData.value, t.theirPsbt.value, rpc).signed;
        FinishBroadcasts(w, me, t.(ourPsbt := Some(signed)), locked, rpc, None);
      }
    }
  }

  lemma OursNeedsSellerData(w: World, me: string, t: TradeState)
    requires Consistent(w, me, t) && t.ourPsbt.Some?
    ensures t.sellerData.Some?
  {
    hide OutputsVerdict, OnlyInputChanged, AllButOneChanged, PaysSeller, OnlyUpdates, Signs;
  }

  /**
   * With working calls, a maker who has both PSBTs broadcasts exactly when every
   * input is signed. A buyer's own one has to be there from before.
   */
  lemma BroadcastsExactly(w: World, me: string, t: TradeState, locked: set<OutPoint>, rpc: Rpc)
    requires Consistent(w, me, t) && LawfulAnswers(w, me, t, locked, rpc) && CallsWork(rpc)
    requires t.state == Initiated && GetRole(me, t) == Maker && (GetOrderType(me, t) == Bid ==> t.ourPsbt.Some?)
    ensures var r := HasReply(w, me, t, locked, rpc); r.broadcast.Some? <==> EveryInputSigned(me, r.trade)
  {
    hide Lawful, BuyerSigned, BuyerBuilds, CallsWork;
    if t.ourPsbt.Some? {
      OursNeedsSellerData(w, me, t);
      FinishBroadcasts(w, me, t, locked, rpc, None);
    } else if t.sellerData.Some? && t.theirPsbt.Some? {
      if SellerSigns(w, me, t, t.sellerData.value, t.theirPsbt.value, rpc).Ok? {
        SellerSignsWell(w, me, t, locked, rpc);
        var signed := SellerSigns(w, me, t, t.sellerData.value, t.theirPsbt.value, rpc).signed;
        FinishBroadcasts(w, me, t.(ourPsbt := Some(signed)), locked, rpc, None);
      }
    }
  }

  /** A trade becomes pending exactly with the maker's broadcast, or the taker's message with a PSBT. */
  lemma PendingExactly(w: World, me: string, t: TradeState, locked: set<OutPoint>, rpc: Rpc)
    requires Consistent(w, me, t) && LawfulAnswers(w, me, t, locked, rpc) && t.state == Initiated
    ensures var r := HasReply(w, me, t, locked, rpc);
            && r.trade.state in {Initiated, Pending}
            && (r.trade.state == Pending <==>
                  if GetRole(me, t) == Maker then r.broadcast.Some? else r.outcome.Sent? && r.outcome.msg.psbt.Some?)
  {
    hide SellerSigned, BuyerSigned, OutputsVerdict, OnlyInputChanged, AllButOneChanged, ConstructTransaction, Lawful;
  }
}
