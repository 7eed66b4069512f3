/**
 * The wallet's coin locks and the wrapper through which the program works on
 * the stored data of one trade. Each method is tied to the rules of `TradeRules`.
 */
module Trades {
  import opened Amounts
  import opened Chain
  import opened Checker
  import opened Orders
  import opened Psbts
  import opened Rules = TradeRules
  import opened Wrappers

  class Wallet {
    var locked: set<OutPoint>

    constructor ()
      ensures locked == {}
    {
      locked := {};
    }

    /** Locks or unlocks one outpoint; an exception of the call reads as failure. */
    method LockUnspent(lock: bool, out: OutPoint, refused: bool) returns (ok: bool)
      modifies this
      ensures ok <==> !refused && (lock <==> out !in old(locked))
      ensures locked == if !ok then old(locked) else if lock then old(locked) + {out} else old(locked) - {out}
    {
      ok := !refused && (lock == (out !in locked));
      if ok {
        locked := if lock then locked + {out} else locked - {out};
      }
    }

    /** Funds a transaction and locks the coins it spends. */
    method CreateFunded(rpc: Rpc, addr: string, total: int) returns (psbt: Option<Psbt>)
      modifies this
      ensures psbt == rpc.fund(addr, total)
      ensures locked == if psbt.Some? then old(locked) + Inputs(psbt.value.tx) else old(locked)
    {
      psbt := rpc.fund(addr, total);
      if psbt.Some? {
        locked := locked + Inputs(psbt.value.tx);
      }
    }

    /** Unlocks whatever inputs of a transaction are locked. */
    method UnlockPsbtInputs(psbt: Psbt)
      modifies this
      ensures locked == old(locked) - Inputs(psbt.tx)
    {
      var vin := psbt.tx.vin;
      for i := 0 to |vin|
        invariant locked == old(locked) - set o | o in vin[..i]
      {
        assert vin[..i + 1] == vin[..i] + [vin[i]];
        var _ := LockUnspent(false, vin[i], false);
      }
      assert vin[..|vin|] == vin;
    }
  }

  class Trade {
    const world: World
    const account: string
    var pb: TradeState

    constructor (w: World, a: string, p: TradeState)
      ensures world == w && account == a && pb == p
    {
      world, account, pb := w, a, p;
    }

    method BuildTradeChecker() returns (c: TradeChecker)
      ensures c.world == world && c.params == GetParams(account, pb)
    {
      var buyer, seller;
      if GetOrderType(account, pb) == Bid {
        buyer, seller := account, pb.counterparty;
      } else {
        buyer, seller := pb.counterparty, account;
      }
      c := new TradeChecker(world, Params(buyer, seller, pb.order.asset.GetOr(""),
                                          ToInt64(pb.order.priceSat.GetOr(0)), ToInt64(pb.units)));
    }

    method MergeSellerData(sd: SellerData)
      modifies this
      ensures pb == Rules.MergeSellerData(account, old(pb), sd)
    {
      if GetOrderType(account, pb) == Ask {
        return;
      }
      if pb.sellerData.Some? {
        return;
      }
      if sd.nameAddress.None? || sd.chiAddress.None? || sd.nameOutput.Some? {
        return;
      }
      if sd.nameAddress == sd.chiAddress {
        return;
      }
      pb := pb.(sellerData := Some(sd));
    }

    method MergePsbt(psbt: PsbtText)
      modifies this
      ensures pb == Rules.MergePsbt(old(pb), psbt)
    {
      if pb.theirPsbt.Some? {
        return;
      }
      pb := pb.(theirPsbt := Some(psbt));
    }

    method HandleMessage(msg: Message)
      modifies this
      ensures pb == Rules.HandleMessage(account, old(pb), msg)
    {
      if pb.state != Initiated {
        return;
      }
      if msg.sellerData.Some? {
        MergeSellerData(msg.sellerData.value);
      }
      if msg.psbt.Some? {
        MergePsbt(msg.psbt.value);
      }
    }

    /** Locks the name output and stores new addresses, if we sell and have not done so. */
    method CreateSellerData(rpc: Rpc, wallet: Wallet) returns (created: bool, threw: bool)
      requires UsableSellerData(account, pb)
      modifies this, wallet
      ensures created ==> !threw
      ensures old(pb).sellerData.Some? || GetOrderType(account, old(pb)) == Bid
              ==> !created && !threw && pb == old(pb) && wallet.locked == old(wallet.locked)
      ensures old(pb).sellerData.None? && GetOrderType(account, old(pb)) == Ask ==>
                var r := ReplySellerData(old(pb), old(wallet.locked), rpc);
                && pb == r.trade && wallet.locked == r.locked
                && (created <==> r.outcome.Sent?) && (threw <==> r.outcome.Threw?)
    {
      if GetOrderType(account, pb) != Ask {
        return false, false;
      }
      if pb.sellerData.Some? {
        return false, false;
      }
      if rpc.nameShow.None? {
        return false, true;
      }
      var locked := wallet.LockUnspent(true, rpc.nameShow.value, rpc.lockRefused);
      if !locked {
        return false, false;
      }
      if rpc.newAddresses.None? {
        return false, true;
      }
      pb := pb.(sellerData := Some(SellerData(Some(rpc.newAddresses.value.0), Some(rpc.newAddresses.value.1),
          rpc.nameShow)));
      created, threw := true, false;
    }

    method ConstructTransaction(params: Params, total: int, nameIn: OutPoint, rpc: Rpc, wallet: Wallet)
      returns (psbt: Option<Psbt>)
      requires pb.sellerData.Some? && UsableSellerData(account, pb)
      modifies wallet
      ensures (psbt, wallet.locked)
              == Rules.ConstructTransaction(world, params, pb.sellerData.value, total, nameIn, old(wallet.locked), rpc)
    {
      var sd := pb.sellerData.value;
      var chiPart := wallet.CreateFunded(rpc, sd.chiAddress.value, total);
      if chiPart.None? || !rpc.buildNamePart {
        return None;
      }
      var namePart := NamePart(nameIn, sd.nameAddress.value, GetXayaName(params.seller),
          GetNameUpdateValue(world, params));
      psbt := rpc.join(chiPart.value, namePart);
    }

    /** The seller's part: check the outputs, sign, check what was signed. */
    method SignAsSeller(rpc: Rpc) returns (signing: Signing)
      requires pb.sellerData.Some? && UsableSellerData(account, pb) && GetOrderType(account, pb) == Ask
               && pb.theirPsbt.Some?
      ensures signing == SellerSigns(world, account, pb, pb.sellerData.value, pb.theirPsbt.value, rpc)
    {
      var checker := BuildTradeChecker();
      var sd := pb.sellerData.value;
      if pb.theirPsbt.value.Malformed? {
        return Stop(Threw);
      }
      var theirs := pb.theirPsbt.value.psbt;
      var verdict := checker.CheckForSellerOutputs(theirs, sd);
      if verdict.Died? {
        return Stop(Outcome.Died);
      }
      if verdict.Rejected? {
        return Stop(Silent);
      }
      var signed := rpc.sign(theirs);
      if signed.None? {
        return Stop(Threw);
      }
      if signed.value.tx != theirs.tx {
        return Stop(Outcome.Died);
      }
      var good := checker.CheckForSellerSignature(theirs, signed.value, sd);
      if !good {
        return Stop(Silent);
      }
      var complete := IsComplete(signed.value);
      match GetRole(account, pb) {
        case Maker => if !complete { return Stop(Silent); }
        case Taker => if complete { return Stop(Silent); }
      }
      signing := Ok(signed.value);
    }

    /** The buyer's part: check the seller, build and fund the transaction, sign it, check what was signed. */
    method BuildAsBuyer(rpc: Rpc, wallet: Wallet) returns (building: Building)
      requires pb.sellerData.Some? && UsableSellerData(account, pb) && GetOrderType(account, pb) == Bid
      modifies wallet
      ensures building == BuyerBuilds(world, account, pb, pb.sellerData.value, old(wallet.locked), rpc)
      ensures wallet.locked == building.locked
    {
      if rpc.buyerView.None? {
        return NotBuilt(wallet.locked, Threw);
      }
      var nameIn := CheckForBuyerTrade(rpc.buyerView.value);
      if nameIn.None? {
        return NotBuilt(wallet.locked, Silent);
      }
      var checker := BuildTradeChecker();
      var params := checker.params;
      var total := GetTotalSat(params.price, params.units);
      if !total.Fits? {
        return NotBuilt(wallet.locked, Outcome.Died);
      }
      var unsigned := ConstructTransaction(params, total.sat, nameIn.value, rpc, wallet);
      if unsigned.None? {
        return NotBuilt(wallet.locked, Threw);
      }
      var signed := rpc.sign(unsigned.value);
      if signed.None? {
        return NotBuilt(wallet.locked, Threw);
      }
      if signed.value.tx != unsigned.value.tx {
        return NotBuilt(wallet.locked, Outcome.Died);
      }
      var good := checker.CheckForBuyerSignature(unsigned.value, signed.value);
      if !good {
        wallet.UnlockPsbtInputs(signed.value);
        return NotBuilt(wallet.locked, Silent);
      }
      if IsComplete(signed.value) {
        return NotBuilt(wallet.locked, Outcome.Died);
      }
      building := Built(unsigned.value, signed.value, nameIn.value, wallet.locked);
    }

    /** The end of a search for a reply, once our own PSBT is there. */
    method FinishReply(rpc: Rpc) returns (outcome: Outcome, broadcast: Option<Tx>)
      requires pb.ourPsbt.Some?
      modifies this
      ensures forall locked, verified ::
                Finish(account, old(pb), locked, rpc, verified) == Result(pb, locked, outcome, broadcast, verified)
    {
      if GetRole(account, pb) == Taker {
        var reply := BasicMessage(pb).(psbt := Some(Encoded(pb.ourPsbt.value)));
        pb := pb.(state := Pending);
        return Sent(reply), None;
      }
      if pb.theirPsbt.None? {
        return Silent, None;
      }
      var finalPsbt: Option<Psbt>;
      match GetOrderType(account, pb) {
        case Bid =>
          finalPsbt := if pb.theirPsbt.value.Malformed? then None
                       else rpc.combine(pb.theirPsbt.value.psbt, pb.ourPsbt.value);
        case Ask =>
          finalPsbt := pb.ourPsbt;
      }
      if finalPsbt.None? || !rpc.finalise {
        return Threw, None;
      }
      if !IsComplete(finalPsbt.value) {
        return Silent, None;
      }
      if !rpc.broadcast {
        return Threw, None;
      }
      pb := pb.(state := Pending);
      return Silent, Some(finalPsbt.value.tx);
    }

    /** Takes the next step of the negotiation if it is our turn, with exactly the effects the rules name. */
    method HasReply(rpc: Rpc, wallet: Wallet)
      returns (outcome: Outcome, broadcast: Option<Tx>, ghost verified: Option<OutPoint>)
      requires UsableSellerData(account, pb)
      modifies this, wallet
      ensures Result(pb, wallet.locked, outcome, broadcast, verified)
              == Rules.HasReply(world, account, old(pb), old(wallet.locked), rpc)
    {
      verified := None;
      if pb.state != Initiated {
        return Silent, None, None;
      }

      var created, threw := CreateSellerData(rpc, wallet);
      if threw {
        return Threw, None, None;
      }
      if created {
        var sd := pb.sellerData.value.(nameOutput := None);
        return Sent(BasicMessage(pb).(sellerData := Some(sd))), None, None;
      }
      if pb.sellerData.None? {
        return Silent, None, None;
      }

      if GetOrderType(account, pb) == Ask && pb.theirPsbt.None? {
        return Silent, None, None;
      }
      if GetOrderType(account, pb) == Ask && pb.ourPsbt.None? {
        var signing := SignAsSeller(rpc);
        if signing.Stop? {
          return signing.outcome, None, None;
        }
        pb := pb.(ourPsbt := Some(signing.signed));
      }

      if GetOrderType(account, pb) == Bid && pb.ourPsbt.None? {
        var building := BuildAsBuyer(rpc, wallet);
        if building.NotBuilt? {
          return building.outcome, None, None;
        }
        pb := pb.(ourPsbt := Some(building.signed));
        verified := Some(building.nameIn);
        if GetRole(account, pb) == Maker {
          return Sent(BasicMessage(pb).(psbt := Some(Encoded(building.unsigned)))), None, verified;
        }
      }

      outcome, broadcast := FinishReply(rpc);
    }

    /** Times out an initiated trade, or checks a pending one against the chain. */
    method Update(now: int, c: ChainCheck, limits: Limits)
      requires pb.state == Pending ==> pb.ourPsbt.Some?
      modifies this
      ensures pb == Rules.Update(old(pb), now, c, limits)
    {
      if pb.state == Initiated {
        if (now - pb.startTime) * 1000 > limits.timeoutMs {
          pb := pb.(state := Abandoned);
        }
        return;
      }
      if pb.state != Pending {
        return;
      }

      var tx := pb.ourPsbt.value.tx;
      if c.trade.Confirmed? {
        if c.trade.height + limits.confirmations <= c.height + 1 {
          pb := pb.(state := Success);
          return;
        }
      }
      if c.trade != Unknown {
        pb := pb.(conflictHeight := None);
        return;
      }

      var conflicted := false;
      for i := 0 to |tx.vin|
        invariant !conflicted && forall k :: 0 <= k < i ==> tx.vin[k] in c.unspent
      {
        if tx.vin[i] !in c.unspent {
          conflicted := true;
          break;
        }
      }
      if !conflicted {
        pb := pb.(conflictHeight := None);
        return;
      }
      if pb.conflictHeight.None? {
        pb := pb.(conflictHeight := Some(c.height));
        return;
      }
      if pb.conflictHeight.value + limits.confirmations <= c.height + 1 {
        pb := pb.(state := Failed);
      }
    }
  }
}
