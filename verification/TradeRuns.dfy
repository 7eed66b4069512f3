/**
 * One honest trade against any counterparty: what holds after every sequence
 * of delivered messages, whatever they contain, and periodic updates.
 */
module TradeRuns {
  import opened Amounts
  import opened Chain
  import opened Checker
  import opened Orders
  import opened Psbts
  import opened TradeRules
  import opened Wrappers

  /** The seller's own PSBT signs a checked PSBT of the counterparty at the locked name output only. */
  ghost predicate SellerSigned(w: World, me: string, t: TradeState) {
    && t.ourPsbt.Some? && t.sellerData.Some? && UsableSellerData(me, t) && GetOrderType(me, t) == Ask
    && t.theirPsbt.Some? && t.theirPsbt.value.Encoded?
    && var (theirs, ours, sd) := (t.theirPsbt.value.psbt, t.ourPsbt.value, t.sellerData.value);
    && OutputsVerdict(w, GetParams(me, t), sd, theirs.tx) == Passed
    && Signs(w, me, theirs, ours)
    && OnlyInputChanged(theirs, ours, sd.nameOutput.value)
    && (GetRole(me, t) == Maker <==> IsComplete(ours))
  }

  /** The one name operation that parties with some parameters agree on. */
  function AgreedMove(w: World, p: Params): NameOp {
    NameOp("name_update", GetXayaName(p.seller), GetNameUpdateValue(w, p))
  }

  /** A seller's stored addresses and locked output are their own. */
  predicate OwnSellerData(w: World, me: string, sd: SellerData) {
    && sd.nameAddress.Some? && sd.chiAddress.Some? && sd.nameOutput.Some?
    && w.addressOwner(sd.nameAddress.value) == me && w.addressOwner(sd.chiAddress.value) == me
    && w.ownerOf(sd.nameOutput.value) == me && w.nameOf(sd.nameOutput.value) == Some(me)
  }

  /** One output pays just a total to an address. */
  predicate PaysJust(tx: Tx, addr: string, total: int) {
    exists i :: 0 <= i < |tx.vout| && IsPayment(tx.vout[i], addr, total) && tx.vout[i].value == total
  }

  /** One output has a name operation and the value that keeps a name. */
  predicate CarriesMove(tx: Tx, op: NameOp) {
    exists j :: 0 <= j < |tx.vout| && tx.vout[j].script.nameOp == Some(op) && tx.vout[j].value == NAME_VALUE
  }

  /** A buyer's PSBT: own coins and one name input of the seller, outputs as agreed, one input not signed. */
  ghost predicate BuyerSigned(w: World, me: string, t: TradeState, unsigned: Psbt, nameIn: OutPoint) {
    && t.ourPsbt.Some? && t.sellerData.Some? && UsableSellerData(me, t) && GetOrderType(me, t) == Bid
    && var (ours, sd, params) := (t.ourPsbt.value, t.sellerData.value, GetParams(me, t));
    && unsigned.tx == ours.tx && Unsigned(unsigned) && Signs(w, me, unsigned, ours)
    && AllButOneChanged(unsigned, ours)
    && GetTotalSat(params.price, params.units).Fits?
    && PaysSeller(w, params, GetTotalSat(params.price, params.units).sat, sd, ours.tx)
    && PaysJust(ours.tx, sd.chiAddress.value, GetTotalSat(params.price, params.units).sat)
    && CarriesMove(ours.tx, AgreedMove(w, params))
    && nameIn in ours.tx.vin && w.nameOf(nameIn) == Some(t.counterparty)
    && (forall o :: o in ours.tx.vin && o != nameIn ==> w.ownerOf(o) == me && w.nameOf(o).None?)
    && (exists o :: o in ours.tx.vin && o != nameIn)
    && OnlyUpdates(ours.tx, AgreedMove(w, params))
  }

  /** Nothing of ours is out yet. */
  predicate Unshared(t: TradeState) {
    t.state == Initiated || t.state == Abandoned
  }

  /** What holds of the stored data of a trade at all times. */
  ghost predicate Consistent(w: World, me: string, t: TradeState) {
    && UsableSellerData(me, t)
    && (t.sellerData.Some? ==> t.sellerData.value.nameAddress != t.sellerData.value.chiAddress)
    && (!Unshared(t) ==> t.ourPsbt.Some?)
    && (Unshared(t) && GetRole(me, t) == Taker ==> t.ourPsbt.None?)
    && (GetOrderType(me, t) == Ask && t.sellerData.Some? ==> OwnSellerData(w, me, t.sellerData.value))
    && (GetOrderType(me, t) == Ask && t.ourPsbt.Some? ==> SellerSigned(w, me, t))
    && (GetOrderType(me, t) == Bid && t.ourPsbt.Some? ==>
          exists unsigned, nameIn :: BuyerSigned(w, me, t, unsigned, nameIn))
  }

  /** What a lawful search for a reply may rely on. */
  ghost predicate LawfulAnswers(w: World, me: string, t: TradeState, locked: set<OutPoint>, rpc: Rpc) {
    Lawful(w, me, locked, rpc) && LawfulView(w, t.counterparty, rpc)
  }

  lemma HandleKeepsConsistent(w: World, me: string, t: TradeState, msg: Message)
    requires Consistent(w, me, t)
    ensures Consistent(w, me, HandleMessage(me, t, msg))
  {
    var t1 := HandleMessage(me, t, msg);
    if t.ourPsbt.Some? && GetOrderType(me, t) == Bid {
      var unsigned, nameIn :| BuyerSigned(w, me, t, unsigned, nameIn);
      assert BuyerSigned(w, me, t1, unsigned, nameIn);
    }
  }

  /** Consistency depends on the state of a trade only through what it says about sharing. */
  lemma StateKeepsConsistent(w: World, me: string, t: TradeState, t1: TradeState)
    requires Consistent(w, me, t) && t1 == t.(state := t1.state, conflictHeight := t1.conflictHeight)
    requires Unshared(t1) ==> Unshared(t)
    requires Unshared(t) ==> Unshared(t1)
    ensures Consistent(w, me, t1)
  {
    if t.ourPsbt.Some? && GetOrderType(me, t) == Bid {
      var unsigned, nameIn :| BuyerSigned(w, me, t, unsigned, nameIn);
      assert BuyerSigned(w, me, t1, unsigned, nameIn);
    }
  }

  lemma UpdateKeepsConsistent(w: World, me: string, t: TradeState, now: int, c: ChainCheck, limits: Limits)
    requires Consistent(w, me, t)
    ensures Consistent(w, me, Update(t, now, c, limits))
  {
    UpdateExtends(t, now, c, limits);
    StateKeepsConsistent(w, me, t, Update(t, now, c, limits));
  }

  lemma SellerSignsWell(w: World, me: string, t: TradeState, locked: set<OutPoint>, rpc: Rpc)
    requires Consistent(w, me, t) && LawfulAnswers(w, me, t, locked, rpc)
    requires t.sellerData.Some? && t.theirPsbt.Some? && GetOrderType(me, t) == Ask
    requires SellerSigns(w, me, t, t.sellerData.value, t.theirPsbt.value, rpc).Ok?
    ensures SellerSigned(w, me, t.(ourPsbt := Some(SellerSigns(w, me, t, t.sellerData.value, t.theirPsbt.value,
            rpc).signed)))
  {
  }

  /** Whatever a buyer builds has the agreed outputs, so the seller's check of the outputs passes. */
  lemma BuyerBuildsWell(w: World, me: string, t: TradeState, locked: set<OutPoint>, rpc: Rpc)
    requires Consistent(w, me, t) && LawfulAnswers(w, me, t, locked, rpc)
    requires t.sellerData.Some? && GetOrderType(me, t) == Bid
    requires BuyerBuilds(w, me, t, t.sellerData.value, locked, rpc).Built?
    ensures var b := BuyerBuilds(w, me, t, t.sellerData.value, locked, rpc);
            && BuyerSigned(w, me, t.(ourPsbt := Some(b.signed)), b.unsigned, b.nameIn)
            && Some(b.nameIn) == CheckForBuyerTrade(rpc.buyerView.value)
            && b.locked == locked + (Inputs(b.signed.tx) - {b.nameIn})
            && (Inputs(b.signed.tx) - {b.nameIn}) !! locked
  {
    var b := BuyerBuilds(w, me, t, t.sellerData.value, locked, rpc);
    var (sd, params) := (t.sellerData.value, GetParams(me, t));
    var total := GetTotalSat(params.price, params.units).sat;
    BuiltTransaction(w, me, t.counterparty, params, sd, total, b.nameIn, locked, rpc);
  }

  lemma BuiltTransaction(w: World, me: string, counterparty: string, params: Params, sd: SellerData, total: int,
                         nameIn: OutPoint, locked: set<OutPoint>, rpc: Rpc)
    requires sd.chiAddress.Some? && sd.nameAddress.Some? && Lawful(w, me, locked, rpc)
    requires w.nameOf(nameIn) == Some(counterparty)
    requires ConstructTransaction(w, params, sd, total, nameIn, locked, rpc).0.Some?
    ensures var (built, locked1) := ConstructTransaction(w, params, sd, total, nameIn, locked, rpc);
            var tx := built.value.tx;
            && Unsigned(built.value) && PaysSeller(w, params, total, sd, tx) && OnlyUpdates(tx, AgreedMove(w, params))
            && PaysJust(tx, sd.chiAddress.value, total) && CarriesMove(tx, AgreedMove(w, params))
            && nameIn in tx.vin && multiset(tx.vin)[nameIn] == 1
            && (forall o :: o in tx.vin && o != nameIn ==> w.ownerOf(o) == me && w.nameOf(o).None?)
            && (exists o :: o in tx.vin && o != nameIn)
            && locked1 == locked + (Inputs(tx) - {nameIn}) && (Inputs(tx) - {nameIn}) !! locked
  {
    var chiPart := rpc.fund(sd.chiAddress.value, total).value;
    assert Funds(w, me, locked, sd.chiAddress.value, total, chiPart);
    var (name, value) := (GetXayaName(params.seller), GetNameUpdateValue(w, params));
    var namePart := NamePart(nameIn, sd.nameAddress.value, name, value);
    var built := rpc.join(chiPart, namePart).value;
    assert Joins(chiPart, namePart, built);
    JoinKeepsInputs(chiPart, namePart, built);
    JoinedOutputs(chiPart, namePart, built);
    assert nameIn !in chiPart.tx.vin && chiPart.tx.vin[0] in built.tx.vin;
    var i :| 0 <= i < |chiPart.tx.vout| && IsPayment(chiPart.tx.vout[i], sd.chiAddress.value, total)
             && chiPart.tx.vout[i].value == total;
    var nameOut := namePart.tx.vout[0];
    assert IsNameUpdate(nameOut, sd.nameAddress.value, name, value);
    JoinKeepsOutputs(chiPart, namePart, built, chiPart.tx.vout[i]);
    JoinKeepsOutputs(chiPart, namePart, built, nameOut);
    assert multiset(built.tx.vin)[nameIn] == 1;
    assert Inputs(chiPart.tx) == Inputs(built.tx) - {nameIn};
  }

  lemma ReplyKeepsConsistent(w: World, me: string, t: TradeState, locked: set<OutPoint>, rpc: Rpc)
    requires Consistent(w, me, t) && LawfulAnswers(w, me, t, locked, rpc)
    ensures Consistent(w, me, HasReply(w, me, t, locked, rpc).trade)
  {
    if t.state != Initiated || t.sellerData.None? {
    } else if t.ourPsbt.Some? {
      FinishKeepsConsistent(w, me, t, locked, rpc, None);
    } else if GetOrderType(me, t) == Ask {
      if t.theirPsbt.Some? && SellerSigns(w, me, t, t.sellerData.value, t.theirPsbt.value, rpc).Ok? {
        SellerSignsWell(w, me, t, locked, rpc);
        var signed := SellerSigns(w, me, t, t.sellerData.value, t.theirPsbt.value, rpc).signed;
        FinishKeepsConsistent(w, me, t.(ourPsbt := Some(signed)), locked, rpc, None);
      }
    } else {
      var b := BuyerBuilds(w, me, t, t.sellerData.value, locked, rpc);
      if b.Built? {
        BuyerBuildsWell(w, me, t, locked, rpc);
        FinishKeepsConsistent(w, me, t.(ourPsbt := Some(b.signed)), b.locked, rpc, Some(b.nameIn));
      }
    }
  }

  /** A trade whose own PSBT is in order, shared or not. */
  ghost predicate PsbtInOrder(w: World, me: string, t: TradeState) {
    && UsableSellerData(me, t) && t.ourPsbt.Some? && t.sellerData.Some?
    && t.sellerData.value.nameAddress != t.sellerData.value.chiAddress
    && (GetOrderType(me, t) == Ask ==>
          SellerSigned(w, me, t) && OwnSellerData(w, me, t.sellerData.value))
    && (GetOrderType(me, t) == Bid ==> exists unsigned, nameIn :: BuyerSigned(w, me, t, unsigned, nameIn))
  }

  lemma FinishKeepsConsistent(w: World, me: string, t: TradeState, locked: set<OutPoint>, rpc: Rpc,
                              verified: Option<OutPoint>)
    requires t.state == Initiated && PsbtInOrder(w, me, t)
    ensures Consistent(w, me, Finish(me, t, locked, rpc, verified).trade)
    ensures GetRole(me, t) == Maker ==> Consistent(w, me, t)
  {
    hide PaysSeller, OnlyInputChanged, AllButOneChanged, Signs, OutputsVerdict;
    var t1 := Finish(me, t, locked, rpc, verified).trade;
    assert t1 == t.(state := t1.state) && (t1.state == Pending || t1 == t);
    if GetOrderType(me, t) == Bid {
      var unsigned, nameIn :| BuyerSigned(w, me, t, unsigned, nameIn);
      assert BuyerSigned(w, me, t1, unsigned, nameIn);
    }
  }

  /**
   * The exact condition under which looking for a reply ends the process: a
   * seller's total that is not positive units times a price or is negative, a
   * buyer's total that does not fit. No other CHECK can fail.
   */
  lemma DiesExactlyOnTotals(w: World, me: string, t: TradeState, locked: set<OutPoint>, rpc: Rpc)
    requires Consistent(w, me, t) && LawfulAnswers(w, me, t, locked, rpc)
    ensures var params := GetParams(me, t);
            var total := GetTotalSat(params.price, params.units);
            HasReply(w, me, t, locked, rpc).outcome.Died? <==>
              && t.state == Initiated && t.sellerData.Some? && t.ourPsbt.None?
              && if GetOrderType(me, t) == Ask
                 then t.theirPsbt.Some? && t.theirPsbt.value.Encoded? && (total.Dies? || (total.Fits? && total.sat < 0))
                 else rpc.buyerView.Some? && CheckForBuyerTrade(rpc.buyerView.value).Some? && !total.Fits?
  {
    hide SellerSigns, BuyerBuilds, Lawful, LawfulView, SellerSigned, BuyerSigned, GetTotalSat, CheckForBuyerTrade;
    if t.state == Initiated && t.sellerData.Some? && t.ourPsbt.None? {
      if GetOrderType(me, t) == Bid {
        BuyerDies(w, me, t, locked, rpc);
      } else if t.theirPsbt.Some? {
        SellerDies(w, me, t, locked, rpc);
      }
    }
  }

  lemma SellerDies(w: World, me: string, t: TradeState, locked: set<OutPoint>, rpc: Rpc)
    requires UsableSellerData(me, t) && Lawful(w, me, locked, rpc)
    requires t.sellerData.Some? && t.theirPsbt.Some? && GetOrderType(me, t) == Ask
    ensures var params := GetParams(me, t);
            var total := GetTotalSat(params.price, params.units);
            SellerSigns(w, me, t, t.sellerData.value, t.theirPsbt.value, rpc) == Stop(Outcome.Died) <==>
              t.theirPsbt.value.Encoded? && (total.Dies? || (total.Fits? && total.sat < 0))
  {
  }

  lemma BuyerDies(w: World, me: string, t: TradeState, locked: set<OutPoint>, rpc: Rpc)
    requires UsableSellerData(me, t) && LawfulAnswers(w, me, t, locked, rpc)
    requires t.sellerData.Some? && GetOrderType(me, t) == Bid
    ensures var params := GetParams(me, t);
            var b := BuyerBuilds(w, me, t, t.sellerData.value, locked, rpc);
            b.NotBuilt? && b.outcome.Died? <==>
              && rpc.buyerView.Some? && CheckForBuyerTrade(rpc.buyerView.value).Some?
              && !GetTotalSat(params.price, params.units).Fits?
  {
    if rpc.buyerView.Some? && CheckForBuyerTrade(rpc.buyerView.value).Some? {
      var params := GetParams(me, t);
      var total := GetTotalSat(params.price, params.units);
      if total.Fits? {
        var nameIn := CheckForBuyerTrade(rpc.buyerView.value).value;
        var built := ConstructTransaction(w, params, t.sellerData.value, total.sat, nameIn, locked, rpc).0;
        if built.Some? && rpc.sign(built.value).Some? {
          BuiltTransaction(w, me, t.counterparty, params, t.sellerData.value, total.sat, nameIn, locked, rpc);
          SignedIsPartial(w, me, built.value, rpc.sign(built.value).value);
        }
      }
    }
  }

  lemma SignedIsPartial(w: World, me: string, before: Psbt, after: Psbt)
    requires Unsigned(before) && Signs(w, me, before, after)
    ensures AllButOneChanged(before, after) ==> !IsComplete(after)
  {
    if AllButOneChanged(before, after) {
      BuyerSignatureIsPartial(before, after);
    }
  }

  // ---------------------------------------------------------------------------
  // Bounded replies.

  function Measure(t: TradeState): nat {
    (if t.sellerData.None? then 1 else 0) + (if t.ourPsbt.None? then 1 else 0) + (if t.state == Initiated then 1 else 0)
  }

  /** The data that is filled in during a trade, once filled in, stays, and all of it does once negotiation is over. */
  predicate Extends(t: TradeState, later: TradeState) {
    && (later.order, later.units, later.counterparty, later.startTime)
       == (t.order, t.units, t.counterparty, t.startTime)
    && (t.sellerData.Some? ==> later.sellerData == t.sellerData)
    && (t.ourPsbt.Some? ==> later.ourPsbt == t.ourPsbt)
    && (t.theirPsbt.Some? ==> later.theirPsbt == t.theirPsbt)
    && (t.state != Initiated ==>
          later.state != Initiated && later == t.(state := later.state, conflictHeight := later.conflictHeight))
    && (t.state == Pending ==> later.state in {Pending, Success, Failed})
    && (IsFinalised(t) ==> later.state == t.state)
  }

  lemma HandleExtends(me: string, t: TradeState, msg: Message)
    ensures Extends(t, HandleMessage(me, t, msg)) && Measure(HandleMessage(me, t, msg)) <= Measure(t)
    ensures HandleMessage(me, t, msg).state == t.state && HandleMessage(me, t, msg).ourPsbt == t.ourPsbt
  {
  }

  lemma UpdateExtends(t: TradeState, now: int, c: ChainCheck, limits: Limits)
    requires t.state == Pending ==> t.ourPsbt.Some?
    ensures Extends(t, Update(t, now, c, limits)) && Measure(Update(t, now, c, limits)) <= Measure(t)
    ensures var t1 := Update(t, now, c, limits);
            t1 == t.(state := t1.state, conflictHeight := t1.conflictHeight) && (Unshared(t) <==> Unshared(t1))
  {
  }

  /** Every reply uses up part of the measure, and nothing gives any of it back. */
  lemma ReplyDecreases(w: World, me: string, t: TradeState, locked: set<OutPoint>, rpc: Rpc)
    requires UsableSellerData(me, t)
    ensures var r := HasReply(w, me, t, locked, rpc);
            && Extends(t, r.trade) && Measure(r.trade) <= Measure(t)
            && (r.outcome.Sent? ==> Measure(r.trade) < Measure(t))
            && (r.broadcast.Some? ==> Measure(r.trade) < Measure(t))
            && (Unshared(r.trade) ==> Unshared(t))
  {
    hide OutputsVerdict, OnlyInputChanged, AllButOneChanged, ConstructTransaction, GetTotalSat, CheckForBuyerTrade;
  }

  // ---------------------------------------------------------------------------
  // Whole runs.

  datatype TradeEvent =
    | Delivered(msg: Message, locked: set<OutPoint>, rpc: Rpc)
    | Ticked(now: int, check: ChainCheck, limits: Limits)

  /** A trade with everything it has sent and broadcast so far. */
  datatype History = History(trade: TradeState, sent: seq<Message>, broadcasts: seq<Tx>)

  ghost predicate LawfulEvents(w: World, me: string, t: TradeState, events: seq<TradeEvent>) {
    forall e :: e in events && e.Delivered? ==> LawfulAnswers(w, me, t, e.locked, e.rpc)
  }

  ghost predicate IsNew(me: string, t: TradeState) {
    t == NewTrade(t.order, t.units, t.counterparty, t.startTime) && t.counterparty != me
  }

  ghost function TradeStep(w: World, me: string, h: History, e: TradeEvent): History
    requires Consistent(w, me, h.trade)
  {
    match e
    case Ticked(now, c, limits) => h.(trade := Update(h.trade, now, c, limits))
    case Delivered(msg, locked, rpc) =>
      HandleKeepsConsistent(w, me, h.trade, msg);
      AfterReply(h, HasReply(w, me, HandleMessage(me, h.trade, msg), locked, rpc))
  }

  function AfterReply(h: History, r: Result): History {
    History(r.trade,
            if r.outcome.Sent? then h.sent + [r.outcome.msg] else h.sent,
            if r.broadcast.Some? then h.broadcasts + [r.broadcast.value] else h.broadcasts)
  }

  function CountSellerData(sent: seq<Message>): nat {
    if sent == [] then 0
    else CountSellerData(sent[..|sent| - 1]) + if sent[|sent| - 1].sellerData.Some? then 1 else 0
  }

  function CountPsbts(sent: seq<Message>): nat {
    if sent == [] then 0
    else CountPsbts(sent[..|sent| - 1]) + if sent[|sent| - 1].psbt.Some? then 1 else 0
  }

  /** Every PSBT sent or transaction broadcast is the one our own PSBT signs, and unsigned while unshared. */
  ghost predicate NoLeaks(h: History) {
    && (forall m :: m in h.sent && m.psbt.Some? ==>
          && m.psbt.value.Encoded? && h.trade.ourPsbt.Some? && m.psbt.value.psbt.tx == h.trade.ourPsbt.value.tx
          && (Unshared(h.trade) ==> Unsigned(m.psbt.value.psbt)))
    && (forall tx :: tx in h.broadcasts ==>
          !Unshared(h.trade) && h.trade.ourPsbt.Some? && tx == h.trade.ourPsbt.value.tx)
  }

  ghost predicate FewReplies(me: string, h: History) {
    && CountSellerData(h.sent) <= (if GetOrderType(me, h.trade) == Ask && h.trade.sellerData.Some? then 1 else 0)
    && CountPsbts(h.sent) <= (if h.trade.ourPsbt.Some? then 1 else 0)
    && |h.broadcasts| <= (if Unshared(h.trade) then 0 else 1)
    && (GetRole(me, h.trade) == Taker && Unshared(h.trade) ==> CountPsbts(h.sent) == 0)
    && (GetRole(me, h.trade) == Maker && GetOrderType(me, h.trade) == Ask ==> CountPsbts(h.sent) == 0)
    && |h.sent| == CountSellerData(h.sent) + CountPsbts(h.sent)
  }

  ghost predicate RunInvariant(w: World, me: string, t0: TradeState, h: History) {
    Consistent(w, me, h.trade) && Extends(t0, h.trade) && NoLeaks(h) && FewReplies(me, h)
  }

  lemma CountOneMore(sent: seq<Message>, m: Message)
    ensures CountSellerData(sent + [m]) == CountSellerData(sent) + if m.sellerData.Some? then 1 else 0
    ensures CountPsbts(sent + [m]) == CountPsbts(sent) + if m.psbt.Some? then 1 else 0
  {
    assert (sent + [m])[..|sent + [m]| - 1] == sent;
  }

  /** What a reply or broadcast says about the trade before and after it. */
  ghost predicate ReplyShape(me: string, t: TradeState, r: Result) {
    && (r.outcome.Sent? ==>
          var m := r.outcome.msg;
          && m.counterparty == t.counterparty && m.identifier == GetIdentifier(t) && m.takingOrder.None?
          && (m.sellerData.Some? || m.psbt.Some?)
          && (m.sellerData.Some? ==>
                && m.psbt.None? && GetOrderType(me, t) == Ask && t.sellerData.None? && r.trade.sellerData.Some?
                && m.sellerData.value == r.trade.sellerData.value.(nameOutput := None))
          && (m.psbt.Some? ==>
                && m.sellerData.None? && m.psbt.value.Encoded? && r.trade.ourPsbt.Some? && t.ourPsbt.None?
                && m.psbt.value.psbt.tx == r.trade.ourPsbt.value.tx
                && if GetRole(me, t) == Taker
                   then r.trade.state == Pending && m.psbt.value.psbt == r.trade.ourPsbt.value
                   else r.trade.state == Initiated && GetOrderType(me, t) == Bid && Unsigned(m.psbt.value.psbt)))
    && (r.broadcast.Some? ==>
          && GetRole(me, t) == Maker && t.state == Initiated && r.trade.state == Pending
          && r.trade.ourPsbt.Some? && r.broadcast.value == r.trade.ourPsbt.value.tx)
  }

  lemma FinishHasShape(w: World, me: string, t: TradeState, ours: Psbt, locked: set<OutPoint>, rpc: Rpc,
                       verified: Option<OutPoint>)
    requires t.state == Initiated && (t.ourPsbt.Some? ==> t.ourPsbt.value == ours && GetRole(me, t) == Maker)
    requires forall p, q :: rpc.combine(p, q).Some? ==> Combines(p, q, rpc.combine(p, q).value)
    ensures ReplyShape(me, t, Finish(me, t.(ourPsbt := Some(ours)), locked, rpc, verified))
  {
  }

  lemma ReplyHasShape(w: World, me: string, t: TradeState, locked: set<OutPoint>, rpc: Rpc)
    requires Consistent(w, me, t) && LawfulAnswers(w, me, t, locked, rpc)
    ensures ReplyShape(me, t, HasReply(w, me, t, locked, rpc))
  {
    if t.state != Initiated || t.sellerData.None? {
    } else if t.ourPsbt.Some? {
      FinishHasShape(w, me, t, t.ourPsbt.value, locked, rpc, None);
    } else if GetOrderType(me, t) == Ask {
      if t.theirPsbt.Some? && SellerSigns(w, me, t, t.sellerData.value, t.theirPsbt.value, rpc).Ok? {
        var signed := SellerSigns(w, me, t, t.sellerData.value, t.theirPsbt.value, rpc).signed;
        FinishHasShape(w, me, t, signed, locked, rpc, None);
      }
    } else {
      var b := BuyerBuilds(w, me, t, t.sellerData.value, locked, rpc);
      if b.Built? {
        BuyerBuildsWell(w, me, t, locked, rpc);
        FinishHasShape(w, me, t, b.signed, b.locked, rpc, Some(b.nameIn));
      }
    }
  }

  lemma StepKeepsNoLeaks(me: string, h: History, t: TradeState, r: Result, h1: History)
    requires NoLeaks(h) && Extends(h.trade, r.trade) && ReplyShape(me, t, r)
    requires t.state == h.trade.state && t.ourPsbt == h.trade.ourPsbt && (Unshared(r.trade) ==> Unshared(h.trade))
    requires h1 == AfterReply(h, r)
    ensures NoLeaks(h1)
  {
  }

  lemma StepKeepsFew(me: string, h: History, t: TradeState, r: Result, h1: History)
    requires FewReplies(me, h) && Extends(h.trade, t) && Extends(t, r.trade) && ReplyShape(me, t, r)
    requires t.state == h.trade.state && t.ourPsbt == h.trade.ourPsbt
    requires Measure(t) <= Measure(h.trade) && Measure(r.trade) <= Measure(t)
    requires r.outcome.Sent? ==> Measure(r.trade) < Measure(t)
    requires h1 == AfterReply(h, r)
    requires Unshared(r.trade) ==> Unshared(h.trade)
    ensures FewReplies(me, h1)
  {
    hide CountSellerData, CountPsbts, Unsigned, IsFinalised;
    if r.outcome.Sent? {
      CountOneMore(h.sent, r.outcome.msg);
    }
  }

  lemma TickKeeps(me: string, h: History, t: TradeState)
    requires NoLeaks(h) && FewReplies(me, h)
    requires t == h.trade.(state := t.state, conflictHeight := t.conflictHeight)
    requires (Unshared(h.trade) <==> Unshared(t)) && Measure(t) <= Measure(h.trade)
    ensures NoLeaks(h.(trade := t)) && FewReplies(me, h.(trade := t))
  {
  }

  lemma ExtendsOn(t: TradeState, t1: TradeState, t2: TradeState)
    requires Extends(t, t1) && Extends(t1, t2)
    ensures Extends(t, t2)
  {
  }

  lemma LawfulOn(w: World, me: string, t: TradeState, later: TradeState, locked: set<OutPoint>, rpc: Rpc)
    requires Extends(t, later) && LawfulAnswers(w, me, t, locked, rpc)
    ensures LawfulAnswers(w, me, later, locked, rpc)
  {
    hide Lawful;
  }

  lemma StepKeepsInvariant(w: World, me: string, t0: TradeState, h: History, e: TradeEvent)
    requires RunInvariant(w, me, t0, h) && (e.Delivered? ==> LawfulAnswers(w, me, t0, e.locked, e.rpc))
    ensures RunInvariant(w, me, t0, TradeStep(w, me, h, e))
  {
    hide HasReply, HandleMessage, NoLeaks, FewReplies, ReplyShape, Extends, LawfulAnswers, Measure, SellerSigned,
      BuyerSigned;
    match e
    case Ticked(now, c, limits) =>
      UpdateKeepsConsistent(w, me, h.trade, now, c, limits);
      UpdateExtends(h.trade, now, c, limits);
      TickKeeps(me, h, Update(h.trade, now, c, limits));
      ExtendsOn(t0, h.trade, Update(h.trade, now, c, limits));
    case Delivered(msg, locked, rpc) =>
      var t := HandleMessage(me, h.trade, msg);
      HandleKeepsConsistent(w, me, h.trade, msg);
      HandleExtends(me, h.trade, msg);
      ExtendsOn(t0, h.trade, t);
      LawfulOn(w, me, t0, t, locked, rpc);
      ReplyKeepsConsistent(w, me, t, locked, rpc);
      ReplyDecreases(w, me, t, locked, rpc);
      ReplyHasShape(w, me, t, locked, rpc);
      var r := HasReply(w, me, t, locked, rpc);
      ExtendsOn(h.trade, t, r.trade);
      ExtendsOn(t0, t, r.trade);
      StepKeepsNoLeaks(me, h, t, r, AfterReply(h, r));
      StepKeepsFew(me, h, t, r, AfterReply(h, r));
  }

  /** A whole run of a new trade. */
  ghost function TradeRun(w: World, me: string, t0: TradeState, events: seq<TradeEvent>): (h: History)
    requires IsNew(me, t0) && LawfulEvents(w, me, t0, events)
    ensures RunInvariant(w, me, t0, h)
  {
    if events == [] then History(t0, [], [])
    else
      var n := |events| - 1;
      var before := TradeRun(w, me, t0, events[..n]);
      StepKeepsInvariant(w, me, t0, before, events[n]);
      TradeStep(w, me, before, events[n])
  }

  /** The PSBTs a counterparty has been sent. */
  ghost function SeenPsbts(h: History): set<Psbt> {
    set m | m in h.sent && m.psbt.Some? && m.psbt.value.Encoded? :: m.psbt.value.psbt
  }

  /** While a trade is initiated, and for ever once it is abandoned, nothing of it is signed in other hands. */
  lemma {:induction false} AbandonedMeansNoSignatureShared(w: World, me: string, t0: TradeState,
                                                           events: seq<TradeEvent>, d: Derivation)
    requires IsNew(me, t0) && LawfulEvents(w, me, t0, events)
    requires Unshared(TradeRun(w, me, t0, events).trade)
    requires Possible(w, me, SeenPsbts(TradeRun(w, me, t0, events)), d)
    ensures NoneSignedBy(w, me, d.result)
    ensures TradeRun(w, me, t0, events).broadcasts == []
    ensures var t := TradeRun(w, me, t0, events).trade;
            t.ourPsbt.Some? && d.result.tx == t.ourPsbt.value.tx ==> !IsComplete(d.result)
  {
    var h := TradeRun(w, me, t0, events);
    assert FewReplies(me, h);
    forall i: nat | i < |d.result.inputs| && d.result.inputs[i].signed
      ensures w.ownerOf(d.result.tx.vin[i]) != me
    {
      if w.ownerOf(d.result.tx.vin[i]) == me {
        SignaturesAreSeen(w, me, SeenPsbts(h), d, i);
      }
    }
    if h.trade.ourPsbt.Some? && d.result.tx == h.trade.ourPsbt.value.tx {
      OwnInput(w, me, h.trade);
    }
  }

  /** Our own PSBT spends something of ours. */
  lemma OwnInput(w: World, me: string, t: TradeState)
    requires Consistent(w, me, t) && t.ourPsbt.Some?
    ensures exists i :: 0 <= i < |t.ourPsbt.value.tx.vin| && w.ownerOf(t.ourPsbt.value.tx.vin[i]) == me
  {
    var tx := t.ourPsbt.value.tx;
    if GetOrderType(me, t) == Ask {
      var i :| IsFirstInput(tx, t.sellerData.value.nameOutput.value, i);
    } else {
      var unsigned, nameIn :| BuyerSigned(w, me, t, unsigned, nameIn);
      var o :| o in tx.vin && o != nameIn;
      var i :| 0 <= i < |tx.vin| && tx.vin[i] == o;
    }
  }

  /**
   * Against any counterparty a trade sends at most two replies, one of them with
   * seller data and one with a PSBT, and reveals signatures on one transaction only.
   */
  lemma RepliesAreBounded(w: World, me: string, t0: TradeState, events: seq<TradeEvent>)
    requires IsNew(me, t0) && LawfulEvents(w, me, t0, events)
    ensures var h := TradeRun(w, me, t0, events);
            && |h.sent| <= 2 && CountSellerData(h.sent) <= 1 && CountPsbts(h.sent) <= 1 && |h.broadcasts| <= 1
            && (forall p, tx :: p in SeenPsbts(h) && tx in h.broadcasts ==> p.tx == tx)
            && (forall p, q :: p in SeenPsbts(h) && q in SeenPsbts(h) ==> p.tx == q.tx)
  {
    var h := TradeRun(w, me, t0, events);
    assert RunInvariant(w, me, t0, h);
  }

  lemma StepExtends(w: World, me: string, h: History, e: TradeEvent)
    requires Consistent(w, me, h.trade)
    ensures Extends(h.trade, TradeStep(w, me, h, e).trade)
  {
    match e
    case Ticked(now, c, limits) => UpdateExtends(h.trade, now, c, limits);
    case Delivered(msg, locked, rpc) => HandledReplyExtends(w, me, h.trade, msg, locked, rpc);
  }

  lemma HandledReplyExtends(w: World, me: string, t: TradeState, msg: Message, locked: set<OutPoint>, rpc: Rpc)
    requires Consistent(w, me, t)
    ensures Consistent(w, me, HandleMessage(me, t, msg))
    ensures Extends(t, HasReply(w, me, HandleMessage(me, t, msg), locked, rpc).trade)
  {
    hide HasReply, HandleMessage, SellerSigned, BuyerSigned;
    HandleKeepsConsistent(w, me, t, msg);
    HandleExtends(me, t, msg);
    ReplyDecreases(w, me, HandleMessage(me, t, msg), locked, rpc);
  }

  /** The fields filled in during a run never change again. */
  lemma {:induction false} DataIsWriteOnce(w: World, me: string, t0: TradeState, events: seq<TradeEvent>, n: nat)
    requires IsNew(me, t0) && LawfulEvents(w, me, t0, events) && n <= |events|
    requires LawfulEvents(w, me, t0, events[..n])
    ensures Extends(TradeRun(w, me, t0, events[..n]).trade, TradeRun(w, me, t0, events).trade)
  {
    hide TradeStep, NoLeaks, FewReplies, LawfulAnswers, Consistent, IsNew;
    if n == |events| {
      assert events[..n] == events;
    } else {
      var k := |events| - 1;
      assert events[..k][..n] == events[..n];
      DataIsWriteOnce(w, me, t0, events[..k], n);
      StepExtends(w, me, TradeRun(w, me, t0, events[..k]), events[k]);
    }
  }

  /** An output goes to an address. */
  predicate GoesTo(o: Output, addr: string) {
    o.script.addresses == Some([addr]) || o.script.address == Some(addr)
  }

  /** An output is the update of an account's name to a value, and goes to an address. */
  predicate MovesName(o: Output, account: string, value: string, addr: string) {
    o.script.nameOp == Some(NameOp("name_update", "p/" + account, value)) && GoesTo(o, addr)
  }

  /**
   * What a seller is promised about the transaction of a trade with their
   * signature on it: two outputs, to two addresses of their own. One pays the
   * price of the order for each unit, the other has the game's move that sends the
   * units of the order's asset to the counterparty. Signing changed only their own input.
   */
  ghost predicate SellerGets(w: World, me: string, t: TradeState, tx: Tx) {
    && t.sellerData.Some? && t.sellerData.value.chiAddress.Some? && t.sellerData.value.nameAddress.Some?
    && t.sellerData.value.nameOutput.Some? && t.ourPsbt.Some? && t.theirPsbt.Some? && t.theirPsbt.value.Encoded?
    && var (sd, price, units) := (t.sellerData.value, ToInt64(t.order.priceSat.GetOr(0)), ToInt64(t.units));
    && units > 0 && 0 <= price * units < TWO_63 && sd.chiAddress != sd.nameAddress
    && var move := w.updateValue(me, t.counterparty, t.order.asset.GetOr(""), units);
    && (exists j :: 0 <= j < |tx.vout| && MovesName(tx.vout[j], me, move, sd.nameAddress.value))
    && (price != 0 ==>
          exists i :: 0 <= i < |tx.vout| && GoesTo(tx.vout[i], sd.chiAddress.value) && tx.vout[i].script.nameOp.None?
                      && tx.vout[i].value >= price * units)
    && var (theirs, ours, out) := (t.theirPsbt.value.psbt, t.ourPsbt.value, sd.nameOutput.value);
    && theirs.tx == tx == ours.tx && out in tx.vin
    && (forall k :: 0 <= k < |tx.vin| && tx.vin[k] != out ==> theirs.inputs[k] == ours.inputs[k])
    && OwnSellerData(w, me, sd)
  }

  /**
   * What a buyer gets into the transaction they sign: the game's move that sends
   * them the units of the order's asset, with 0.01 CHI and as the only name operation;
   * a payment of just the price for each unit; own coins but for the one name input of
   * the counterparty; and one input, and only one, that their signing has not changed.
   */
  ghost predicate BuyerGets(w: World, me: string, t: TradeState) {
    && t.sellerData.Some? && t.sellerData.value.chiAddress.Some? && t.sellerData.value.nameAddress.Some?
    && t.ourPsbt.Some?
    && var (sd, tx) := (t.sellerData.value, t.ourPsbt.value.tx);
    && var (price, units) := (ToInt64(t.order.priceSat.GetOr(0)), ToInt64(t.units));
    && units > 0 && -TWO_63 <= price * units < TWO_63
    && var move := w.updateValue(t.counterparty, me, t.order.asset.GetOr(""), units);
    && (exists j :: 0 <= j < |tx.vout| && MovesName(tx.vout[j], t.counterparty, move, sd.nameAddress.value))
    && (forall o :: o in tx.vout && o.script.nameOp.Some? ==>
          o.script.nameOp.value == NameOp("name_update", "p/" + t.counterparty, move))
    && (exists nameIn :: nameIn in tx.vin && w.nameOf(nameIn) == Some(t.counterparty)
                         && forall o :: o in tx.vin && o != nameIn ==> w.ownerOf(o) == me && w.nameOf(o).None?)
    && (exists i :: 0 <= i < |tx.vout| && GoesTo(tx.vout[i], sd.chiAddress.value) && tx.vout[i].script.nameOp.None?
                    && tx.vout[i].value == price * units)
    && (exists j :: 0 <= j < |tx.vout| && tx.vout[j].script.nameOp.Some? && tx.vout[j].value == 1_000_000)
    && (exists unsigned: Psbt, i :: SignsAllBut(unsigned, t.ourPsbt.value, i))
  }

  /** Before and after signing an unsigned transaction: just one input is the same. */
  predicate SignsAllBut(unsigned: Psbt, ours: Psbt, i: nat) {
    && unsigned.tx == ours.tx && i < |ours.tx.vin|
    && (forall k :: 0 <= k < |ours.tx.vin| ==> !unsigned.inputs[k].signed)
    && forall k :: 0 <= k < |ours.tx.vin| ==> (unsigned.inputs[k] == ours.inputs[k] <==> k == i)
  }

  lemma AddressIs(script: ScriptPubKey, addr: string)
    ensures MatchesAddress(script, addr) <==> script.addresses == Some([addr]) || script.address == Some(addr)
  {
    if script.addresses.Some? && |script.addresses.value| == 1 {
      assert script.addresses.value == [script.addresses.value[0]];
    }
  }

  lemma PassedMeansPaid(w: World, p: Params, sd: SellerData, tx: Tx)
    requires sd.chiAddress.Some? && sd.nameAddress.Some? && OutputsVerdict(w, p, sd, tx) == Passed
    ensures p.units > 0 && 0 <= p.price * p.units < TWO_63 && PaysSeller(w, p, p.price * p.units, sd, tx)
    ensures p.price != 0 ==> p.price * p.units != 0
  {
    hide PaysSeller, GetTotalSat;
    TotalIsExact(p.price, p.units);
  }

  lemma UpdateMoves(w: World, p: Params, total: int, sd: SellerData, tx: Tx)
    requires sd.chiAddress.Some? && sd.nameAddress.Some? && PaysSeller(w, p, total, sd, tx)
    ensures var move := w.updateValue(p.seller, p.buyer, p.asset, p.units);
            exists j :: 0 <= j < |tx.vout| && MovesName(tx.vout[j], p.seller, move, sd.nameAddress.value)
    ensures total != 0 ==>
              exists i :: 0 <= i < |tx.vout| && GoesTo(tx.vout[i], sd.chiAddress.value)
                          && tx.vout[i].script.nameOp.None? && tx.vout[i].value >= total
  {
    hide MatchesAddress;
    var move := w.updateValue(p.seller, p.buyer, p.asset, p.units);
    var j :| 0 <= j < |tx.vout|
             && IsNameUpdate(tx.vout[j], sd.nameAddress.value, GetXayaName(p.seller), GetNameUpdateValue(w, p));
    AddressIs(tx.vout[j].script, sd.nameAddress.value);
    assert MovesName(tx.vout[j], p.seller, move, sd.nameAddress.value);
    if total != 0 {
      var i :| 0 <= i < |tx.vout| && IsPayment(tx.vout[i], sd.chiAddress.value, total);
      AddressIs(tx.vout[i].script, sd.chiAddress.value);
      assert GoesTo(tx.vout[i], sd.chiAddress.value);
    }
  }

  /** What a buyer has signed gives them what they are after. */
  lemma SignedMeansMoved(w: World, me: string, t: TradeState)
    requires Consistent(w, me, t) && GetOrderType(me, t) == Bid && t.ourPsbt.Some?
    ensures BuyerGets(w, me, t)
  {
    hide AllButOneChanged, Signs, OutputsVerdict, GetTotalSat, PaysSeller, MovesName, PaysJust, SignsAllBut, Unsigned;
    var unsigned, nameIn :| BuyerSigned(w, me, t, unsigned, nameIn);
    var (params, tx, sd) := (GetParams(me, t), t.ourPsbt.value.tx, t.sellerData.value);
    TotalIsExact(params.price, params.units);
    UpdateMoves(w, params, GetTotalSat(params.price, params.units).sat, sd, tx);
    JustPaid(tx, sd.chiAddress.value, params.price * params.units);
    var i := OneUnchanged(unsigned, t.ourPsbt.value);
  }

  lemma JustPaid(tx: Tx, addr: string, total: int)
    requires PaysJust(tx, addr, total)
    ensures exists i :: 0 <= i < |tx.vout| && GoesTo(tx.vout[i], addr) && tx.vout[i].script.nameOp.None?
                        && tx.vout[i].value == total
  {
    var i :| 0 <= i < |tx.vout| && IsPayment(tx.vout[i], addr, total) && tx.vout[i].value == total;
    AddressIs(tx.vout[i].script, addr);
    assert GoesTo(tx.vout[i], addr);
  }

  lemma OneUnchanged(unsigned: Psbt, ours: Psbt) returns (i: nat)
    requires unsigned.tx == ours.tx && Unsigned(unsigned) && AllButOneChanged(unsigned, ours)
    ensures SignsAllBut(unsigned, ours, i)
  {
    i :| i < |unsigned.inputs| && unsigned.inputs[i] == ours.inputs[i]
         && forall j :: 0 <= j < |unsigned.inputs| && unsigned.inputs[j] == ours.inputs[j] ==> j == i;
  }

  lemma SignedMeansPaid(w: World, me: string, t: TradeState)
    requires Consistent(w, me, t) && SellerSigned(w, me, t)
    ensures SellerGets(w, me, t, t.ourPsbt.value.tx)
  {
    hide Signs, OnlyInputChanged, OutputsVerdict, PaysSeller, MovesName, GoesTo;
    var params := GetParams(me, t);
    PassedMeansPaid(w, params, t.sellerData.value, t.ourPsbt.value.tx) by { OnlyOwnInput(w, me, t); }
    UpdateMoves(w, params, params.price * params.units, t.sellerData.value, t.ourPsbt.value.tx);
    OnlyOwnInput(w, me, t);
  }

  lemma OnlyOwnInput(w: World, me: string, t: TradeState)
    requires SellerSigned(w, me, t)
    ensures var (theirs, ours, out) := (t.theirPsbt.value.psbt, t.ourPsbt.value, t.sellerData.value.nameOutput.value);
            && theirs.tx == ours.tx && out in ours.tx.vin
            && forall k :: 0 <= k < |ours.tx.vin| && ours.tx.vin[k] != out ==> theirs.inputs[k] == ours.inputs[k]
  {
    hide OutputsVerdict;
    var (theirs, out) := (t.theirPsbt.value.psbt, t.sellerData.value.nameOutput.value);
    var i :| IsFirstInput(theirs.tx, out, i)
             && forall j :: 0 <= j < |theirs.inputs| && j != i ==> theirs.inputs[j] == t.ourPsbt.value.inputs[j];
  }

  /**
   * Seller safety against any sequence of PSBTs: the transaction the seller has
   * signed, every one they have sent and every one they have broadcast pays them
   * the exact total and updates the name as agreed in another output, and signing
   * changed no input but the locked name output.
   */
  lemma SellerIsSafe(w: World, me: string, t0: TradeState, events: seq<TradeEvent>, tx: Tx)
    requires IsNew(me, t0) && LawfulEvents(w, me, t0, events) && GetOrderType(me, t0) == Ask
    requires var h := TradeRun(w, me, t0, events);
             || (h.trade.ourPsbt.Some? && tx == h.trade.ourPsbt.value.tx)
             || (exists p :: p in SeenPsbts(h) && p.tx == tx)
             || tx in h.broadcasts
    ensures SellerGets(w, me, TradeRun(w, me, t0, events).trade, tx)
    ensures var t := TradeRun(w, me, t0, events).trade;
            (t.order, t.units, t.counterparty) == (t0.order, t0.units, t0.counterparty)
  {
    var h := TradeRun(w, me, t0, events);
    assert h.trade.ourPsbt.Some? && tx == h.trade.ourPsbt.value.tx;
    SignedMeansPaid(w, me, h.trade);
  }

  /** The same for the buyer: every transaction they have signed, sent or broadcast gives them what they take. */
  lemma BuyerIsServed(w: World, me: string, t0: TradeState, events: seq<TradeEvent>, tx: Tx)
    requires IsNew(me, t0) && LawfulEvents(w, me, t0, events) && GetOrderType(me, t0) == Bid
    requires var h := TradeRun(w, me, t0, events);
             || (h.trade.ourPsbt.Some? && tx == h.trade.ourPsbt.value.tx)
             || (exists p :: p in SeenPsbts(h) && p.tx == tx)
             || tx in h.broadcasts
    ensures var t := TradeRun(w, me, t0, events).trade;
            && BuyerGets(w, me, t) && t.ourPsbt.value.tx == tx
            && (t.order, t.units, t.counterparty) == (t0.order, t0.units, t0.counterparty)
  {
    hide BuyerGets, SellerSigned, BuyerSigned;
    var h := TradeRun(w, me, t0, events);
    assert h.trade.ourPsbt.Some? && tx == h.trade.ourPsbt.value.tx;
    SignedMeansMoved(w, me, h.trade);
  }
}
