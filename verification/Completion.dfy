/**
 * Two honest parties with working wallets and a steady chain: for either role
 * assignment the negotiation ends after three messages in one broadcast transaction.
 */
module Completion {
  import opened Amounts
  import opened Chain
  import opened Checker
  import opened Orders
  import opened Psbts
  import opened TradeRules
  import opened TradeRuns
  import opened Wrappers

  /** What a party finds when it is its turn. */
  datatype Call = Call(locked: set<OutPoint>, rpc: Rpc)

  /** A message as it arrives, with the sender filled in. */
  function Incoming(sender: string, m: Message): Message {
    m.(counterparty := sender)
  }

  ghost predicate LawfulCall(w: World, me: string, counterparty: string, c: Call) {
    Lawful(w, me, c.locked, c.rpc) && LawfulView(w, counterparty, c.rpc)
  }

  ghost function Turn(w: World, me: string, t: TradeState, msg: Message, c: Call): (r: Result)
    requires Consistent(w, me, t) && LawfulCall(w, me, t.counterparty, c)
    ensures Consistent(w, me, r.trade) && Extends(t, r.trade)
    ensures Measure(r.trade) <= Measure(t) && (r.outcome.Sent? ==> Measure(r.trade) < Measure(t))
  {
    var t1 := HandleMessage(me, t, msg);
    HandleKeepsConsistent(w, me, t, msg);
    HandleExtends(me, t, msg);
    ReplyKeepsConsistent(w, me, t1, c.locked, c.rpc);
    ReplyDecreases(w, me, t1, c.locked, c.rpc);
    HasReply(w, me, t1, c.locked, c.rpc)
  }

  /** What comes of a conversation: replies in order, both trades, all broadcasts. */
  datatype Transcript = Transcript(messages: seq<Message>, mine: TradeState, theirs: TradeState, broadcasts: seq<Tx>)

  /** A message reaches us; replies go back and forth until somebody has none. */
  ghost function Talk(w: World, me: string, t: TradeState, other: string, u: TradeState, msg: Message,
                      ourCalls: nat -> Call, theirCalls: nat -> Call, n: nat): Transcript
    requires Consistent(w, me, t) && Consistent(w, other, u)
    requires forall k :: LawfulCall(w, me, t.counterparty, ourCalls(k))
    requires forall k :: LawfulCall(w, other, u.counterparty, theirCalls(k))
    decreases Measure(t) + Measure(u)
  {
    var r := Turn(w, me, t, msg, ourCalls(n));
    var cast := if r.broadcast.Some? then [r.broadcast.value] else [];
    if r.outcome.Sent? then
      var rest := Talk(w, other, u, me, r.trade, Incoming(me, r.outcome.msg), theirCalls, ourCalls, n + 1);
      Transcript([r.outcome.msg] + rest.messages, rest.theirs, rest.mine, cast + rest.broadcasts)
    else Transcript([], r.trade, u, cast)
  }

  /** The message with which a taker starts, and their trade. */
  ghost function TakeOrder(w: World, me: string, t: TradeState, c: Call): (Message, TradeState)
    requires UsableSellerData(me, t)
  {
    var r := HasReply(w, me, t, c.locked, c.rpc);
    var msg := if r.outcome.Sent? then r.outcome.msg else BasicMessage(t);
    (msg.(takingOrder := Some(TakingOrder(t.order.id.GetOr(0), t.units))), r.trade)
  }

  /** A whole negotiation from the taker's first message on. The transcript is the maker's. */
  ghost function Negotiate(w: World, order: Order, units: UInt64, maker: string, taker: string, now: int, later: int,
                           makerCalls: nat -> Call, takerCalls: nat -> Call): Transcript
    requires order.account == Some(maker) && maker != taker
    requires forall k :: LawfulCall(w, maker, taker, makerCalls(k))
    requires forall k :: LawfulCall(w, taker, maker, takerCalls(k))
  {
    var t := NewTrade(order, units, maker, now);
    var u := NewTrade(order, units, taker, later);
    var c := takerCalls(0);
    assert LawfulCall(w, taker, maker, c);
    ReplyKeepsConsistent(w, taker, t, c.locked, c.rpc);
    ReplyDecreases(w, taker, t, c.locked, c.rpc);
    var (msg, t1) := TakeOrder(w, taker, t, c);
    var rest := Talk(w, maker, u, taker, t1, Incoming(taker, msg), makerCalls, takerCalls, 1);
    rest.(messages := [msg] + rest.messages)
  }

  // ---------------------------------------------------------------------------

  /** A wallet that does all it can: it signs every input of its own and touches no other. */
  ghost predicate SignsAll(w: World, me: string, p: Psbt, q: Psbt) {
    && q.tx == p.tx
    && forall i :: 0 <= i < |p.inputs| ==>
         if w.ownerOf(p.tx.vin[i]) == me then q.inputs[i].signed else q.inputs[i] == p.inputs[i]
  }

  /** Every call to the wallet and the network works. */
  ghost predicate Cooperative(w: World, me: string, c: Call) {
    && c.rpc.nameShow.Some? && !c.rpc.lockRefused && c.rpc.newAddresses.Some?
    && (forall addr, total :: total >= 0 ==> c.rpc.fund(addr, total).Some?)
    && c.rpc.buildNamePart && (forall p, q :: c.rpc.join(p, q).Some?)
    && (forall p :: c.rpc.sign(p).Some? && SignsAll(w, me, p, c.rpc.sign(p).value))
    && (forall p: Psbt, q: Psbt :: p.tx == q.tx ==> c.rpc.combine(p, q).Some?)
    && c.rpc.finalise && c.rpc.broadcast
  }

  /** The chain shows both parties the same name output of the seller, and the check of it passes. */
  ghost predicate Steady(seller: string, me: string, nameOut: OutPoint, c: Call) {
    if me == seller then c.rpc.nameShow == Some(nameOut)
    else c.rpc.buyerView.Some? && CheckForBuyerTrade(c.rpc.buyerView.value) == Some(nameOut)
  }

  /** Both parties derive the same parameters from their sides of a trade. */
  lemma ParamsAgree(order: Order, units: UInt64, maker: string, taker: string, now: int, later: int)
    requires order.account == Some(maker) && maker != taker
    ensures var (t, u) := (NewTrade(order, units, maker, now), NewTrade(order, units, taker, later));
            && GetParams(taker, t) == GetParams(maker, u)
            && GetOrderType(taker, t) != GetOrderType(maker, u)
            && GetIdentifier(t) == GetIdentifier(u)
  {
  }

  /** A PSBT on which the name input is the only one of the seller's, and all others are signed or none is. */
  ghost predicate Awaits(w: World, seller: string, nameOut: OutPoint, othersSigned: bool, p: Psbt) {
    && (exists i :: 0 <= i < |p.tx.vin| && p.tx.vin[i] == nameOut)
    && (forall i, j :: 0 <= i < j < |p.tx.vin| ==> !(p.tx.vin[i] == nameOut && p.tx.vin[j] == nameOut))
    && (forall i :: 0 <= i < |p.tx.vin| && p.tx.vin[i] != nameOut ==>
          w.ownerOf(p.tx.vin[i]) != seller && (p.inputs[i].signed <==> othersSigned))
    && (exists i :: 0 <= i < |p.tx.vin| && p.tx.vin[i] != nameOut)
    && (forall i :: 0 <= i < |p.tx.vin| && p.tx.vin[i] == nameOut ==> !p.inputs[i].signed)
  }

  /** The buyer's turn: the transaction is built and all of it but the name input signed. */
  lemma BuyerCanBuild(w: World, me: string, t: TradeState, c: Call, nameOut: OutPoint)
    requires Consistent(w, me, t) && LawfulCall(w, me, t.counterparty, c) && Cooperative(w, me, c)
    requires GetOrderType(me, t) == Bid && t.sellerData.Some? && t.counterparty != me
    requires c.rpc.buyerView.Some? && CheckForBuyerTrade(c.rpc.buyerView.value) == Some(nameOut)
    requires w.ownerOf(nameOut) == t.counterparty
    requires var p := GetParams(me, t); GetTotalSat(p.price, p.units).Fits? && GetTotalSat(p.price, p.units).sat >= 0
    ensures var b := BuyerBuilds(w, me, t, t.sellerData.value, c.locked, c.rpc);
            && b.Built? && b.unsigned.tx == b.signed.tx
            && Awaits(w, t.counterparty, nameOut, false, b.unsigned)
            && Awaits(w, t.counterparty, nameOut, true, b.signed)
            && OutputsVerdict(w, GetParams(me, t), t.sellerData.value, b.signed.tx) == Passed
  {
    hide SellerSigned, BuyerSigned, OwnSellerData, PaysSeller, PaysJust, OnlyUpdates, CheckForBuyerTrade, Awaits,
         AllButOneChanged, BuyerBuilds, OutputsVerdict, IsComplete, Signs, Funds, Joins;
    var (sd, params) := (t.sellerData.value, GetParams(me, t));
    var total := GetTotalSat(params.price, params.units).sat;
    BuyerCheckIsExact(c.rpc.buyerView.value);
    var built := ConstructTransaction(w, params, sd, total, nameOut, c.locked, c.rpc).0.value;
    BuiltTransaction(w, me, t.counterparty, params, sd, total, nameOut, c.locked, c.rpc);
    var signed := c.rpc.sign(built).value;
    assert SignsAll(w, me, built, signed);
    BuiltAwaits(w, me, t.counterparty, built, signed, nameOut);
    assert Signs(w, me, built, signed);
    SignedIsPartial(w, me, built, signed);
    BuildsSigned(w, me, t, c, nameOut, built, signed);
    GoodOutputsPass(w, params, sd, signed.tx);
  }

  lemma BuildsSigned(w: World, me: string, t: TradeState, c: Call, nameOut: OutPoint, built: Psbt, signed: Psbt)
    requires t.sellerData.Some? && t.sellerData.value.chiAddress.Some? && t.sellerData.value.nameAddress.Some?
    requires c.rpc.buyerView.Some? && CheckForBuyerTrade(c.rpc.buyerView.value) == Some(nameOut)
    requires var p := GetParams(me, t);
             var total := GetTotalSat(p.price, p.units);
             total.Fits? && ConstructTransaction(w, p, t.sellerData.value, total.sat, nameOut, c.locked, c.rpc).0
                            == Some(built)
    requires c.rpc.sign(built) == Some(signed) && signed.tx == built.tx
    requires AllButOneChanged(built, signed) && !IsComplete(signed)
    ensures var b := BuyerBuilds(w, me, t, t.sellerData.value, c.locked, c.rpc);
            b.Built? && b.unsigned == built && b.signed == signed
  {
    hide CheckForBuyerTrade, ConstructTransaction, AllButOneChanged, IsComplete, GetTotalSat;
  }

  lemma GoodOutputsPass(w: World, p: Params, sd: SellerData, tx: Tx)
    requires sd.chiAddress.Some? && sd.nameAddress.Some?
    requires GetTotalSat(p.price, p.units).Fits? && GetTotalSat(p.price, p.units).sat >= 0
    requires PaysSeller(w, p, GetTotalSat(p.price, p.units).sat, sd, tx)
    ensures OutputsVerdict(w, p, sd, tx) == Passed
  {
    hide PaysSeller, GetTotalSat;
  }

  lemma BuiltAwaits(w: World, me: string, seller: string, p: Psbt, q: Psbt, nameOut: OutPoint)
    requires Unsigned(p) && SignsAll(w, me, p, q)
    requires multiset(p.tx.vin)[nameOut] == 1 && w.ownerOf(nameOut) == seller != me
    requires forall o :: o in p.tx.vin && o != nameOut ==> w.ownerOf(o) == me
    requires exists o :: o in p.tx.vin && o != nameOut
    ensures Awaits(w, seller, nameOut, false, p) && Awaits(w, seller, nameOut, true, q)
    ensures AllButOneChanged(p, q)
  {
    var vin := p.tx.vin;
    OccursOnce(vin, nameOut);
    var i :| 0 <= i < |vin| && vin[i] == nameOut && forall j :: 0 <= j < |vin| && vin[j] == nameOut ==> j == i;
    var o :| o in vin && o != nameOut;
    var k :| 0 <= k < |vin| && vin[k] == o;
    forall j | 0 <= j < |vin| && j != i ensures vin[j] != nameOut && w.ownerOf(vin[j]) == me { assert vin[j] in vin; }
    AwaitsAt(w, me, seller, p, q, nameOut, i, k);
  }

  lemma AwaitsAt(w: World, me: string, seller: string, p: Psbt, q: Psbt, nameOut: OutPoint, i: nat, k: nat)
    requires Unsigned(p) && SignsAll(w, me, p, q) && w.ownerOf(nameOut) == seller != me
    requires i < |p.tx.vin| && k < |p.tx.vin| && i != k && p.tx.vin[i] == nameOut
    requires forall j :: 0 <= j < |p.tx.vin| && j != i ==> p.tx.vin[j] != nameOut && w.ownerOf(p.tx.vin[j]) == me
    ensures Awaits(w, seller, nameOut, false, p) && Awaits(w, seller, nameOut, true, q)
    ensures AllButOneChanged(p, q)
  {
    assert p.inputs[i] == q.inputs[i] && p.tx.vin[k] != nameOut && q.tx.vin[k] != nameOut;
  }

  /** The seller's turn: the PSBT is signed at the name input, which completes it exactly if all others were signed. */
  lemma SellerCanSign(w: World, me: string, t: TradeState, c: Call, nameOut: OutPoint, p: Psbt)
    requires Consistent(w, me, t) && LawfulCall(w, me, t.counterparty, c) && Cooperative(w, me, c)
    requires GetOrderType(me, t) == Ask && t.sellerData.Some? && t.sellerData.value.nameOutput == Some(nameOut)
    requires t.theirPsbt == Some(Encoded(p)) && Awaits(w, me, nameOut, GetRole(me, t) == Maker, p)
    requires OutputsVerdict(w, GetParams(me, t), t.sellerData.value, p.tx) == Passed
    ensures var s := SellerSigns(w, me, t, t.sellerData.value, t.theirPsbt.value, c.rpc);
            && s.Ok? && s.signed.tx == p.tx
            && forall i :: 0 <= i < |p.inputs| && p.tx.vin[i] == nameOut ==> s.signed.inputs[i].signed
  {
    var q := c.rpc.sign(p).value;
    assert SignsAll(w, me, p, q) && w.ownerOf(nameOut) == me;
    var i :| 0 <= i < |p.tx.vin| && p.tx.vin[i] == nameOut;
    assert IsFirstInput(p.tx, nameOut, i);
    assert OnlyInputChanged(p, q, nameOut);
    var k :| 0 <= k < |p.tx.vin| && p.tx.vin[k] != nameOut;
    assert IsComplete(q) <==> p.inputs[k].signed;
  }

  /** The conditions under which the two parties trade. The seller's name output is free when they first need it. */
  ghost predicate Honest(w: World, order: Order, units: UInt64, maker: string, taker: string, nameOut: OutPoint,
                         makerCalls: nat -> Call, takerCalls: nat -> Call)
  {
    && order.account == Some(maker) && maker != taker
    && var seller := if order.Type() == Ask then maker else taker;
    && var total := GetTotalSat(ToInt64(order.priceSat.GetOr(0)), ToInt64(units));
    && total.Fits? && total.sat >= 0
    && (forall k :: LawfulCall(w, maker, taker, makerCalls(k)) && Cooperative(w, maker, makerCalls(k))
                    && Steady(seller, maker, nameOut, makerCalls(k)))
    && (forall k :: LawfulCall(w, taker, maker, takerCalls(k)) && Cooperative(w, taker, takerCalls(k))
                    && Steady(seller, taker, nameOut, takerCalls(k)))
    && nameOut !in (if seller == maker then makerCalls(1) else takerCalls(0)).locked
  }

  /** What both parties have reached. */
  ghost predicate BothOn(r: Transcript, tx: Tx) {
    && |r.messages| == 3 && r.broadcasts == [tx]
    && r.mine.state == Pending && r.mine.ourPsbt.Some? && r.mine.ourPsbt.value.tx == tx
    && r.theirs.state == Pending && r.theirs.ourPsbt.Some? && r.theirs.ourPsbt.value.tx == tx
  }

  /** The seller's first step: the addresses go out. */
  lemma SellerOpens(w: World, me: string, t: TradeState, c: Call, nameOut: OutPoint) returns (sd: SellerData)
    requires t.state == Initiated && t.sellerData.None? && GetOrderType(me, t) == Ask
    requires LawfulCall(w, me, t.counterparty, c) && Cooperative(w, me, c)
    requires c.rpc.nameShow == Some(nameOut) && nameOut !in c.locked
    ensures HasReply(w, me, t, c.locked, c.rpc)
            == Ends(t.(sellerData := Some(sd)), c.locked + {nameOut},
                    Sent(BasicMessage(t).(sellerData := Some(sd.(nameOutput := None)))))
    ensures sd.nameAddress.Some? && sd.chiAddress.Some? && sd.nameAddress != sd.chiAddress
            && sd.nameOutput == Some(nameOut)
    ensures w.ownerOf(nameOut) == me
  {
    sd := SellerData(Some(c.rpc.newAddresses.value.0), Some(c.rpc.newAddresses.value.1), Some(nameOut));
  }

  /** The buyer's step: a taker shares the signed transaction, a maker the unsigned one. */
  lemma BuyerReplies(w: World, me: string, t: TradeState, c: Call, nameOut: OutPoint) returns (p: Psbt, q: Psbt)
    requires Consistent(w, me, t) && LawfulCall(w, me, t.counterparty, c) && Cooperative(w, me, c)
    requires t.state == Initiated && t.ourPsbt.None?
    requires GetOrderType(me, t) == Bid && t.sellerData.Some? && t.counterparty != me
    requires c.rpc.buyerView.Some? && CheckForBuyerTrade(c.rpc.buyerView.value) == Some(nameOut)
    requires w.ownerOf(nameOut) == t.counterparty
    requires var p := GetParams(me, t); GetTotalSat(p.price, p.units).Fits? && GetTotalSat(p.price, p.units).sat >= 0
    ensures p.tx == q.tx && Awaits(w, t.counterparty, nameOut, false, p) && Awaits(w, t.counterparty, nameOut, true, q)
    ensures OutputsVerdict(w, GetParams(me, t), t.sellerData.value, q.tx) == Passed
    ensures var r := HasReply(w, me, t, c.locked, c.rpc);
            && r.broadcast.None?
            && if GetRole(me, t) == Taker
               then r.trade == t.(ourPsbt := Some(q), state := Pending)
                    && r.outcome == Sent(BasicMessage(t).(psbt := Some(Encoded(q))))
               else r.trade == t.(ourPsbt := Some(q)) && r.outcome == Sent(BasicMessage(t).(psbt := Some(Encoded(p))))
  {
    BuyerCanBuild(w, me, t, c, nameOut);
    var b := BuyerBuilds(w, me, t, t.sellerData.value, c.locked, c.rpc);
    p, q := b.unsigned, b.signed;
  }

  /** The seller's last step: a taker shares the signed transaction, a maker broadcasts it. */
  lemma SellerReplies(w: World, me: string, t: TradeState, c: Call, nameOut: OutPoint, p: Psbt) returns (q: Psbt)
    requires Consistent(w, me, t) && LawfulCall(w, me, t.counterparty, c) && Cooperative(w, me, c)
    requires t.state == Initiated && t.ourPsbt.None?
    requires GetOrderType(me, t) == Ask && t.sellerData.Some? && t.sellerData.value.nameOutput == Some(nameOut)
    requires t.theirPsbt == Some(Encoded(p)) && Awaits(w, me, nameOut, GetRole(me, t) == Maker, p)
    requires OutputsVerdict(w, GetParams(me, t), t.sellerData.value, p.tx) == Passed
    ensures q.tx == p.tx && forall i :: 0 <= i < |p.inputs| && p.tx.vin[i] == nameOut ==> q.inputs[i].signed
    ensures var r := HasReply(w, me, t, c.locked, c.rpc);
            && r.trade == t.(ourPsbt := Some(q), state := Pending)
            && if GetRole(me, t) == Taker
               then r.outcome == Sent(BasicMessage(t).(psbt := Some(Encoded(q)))) && r.broadcast.None?
               else r.outcome == Silent && r.broadcast == Some(p.tx)
  {
    SellerCanSign(w, me, t, c, nameOut, p);
    q := SellerSigns(w, me, t, t.sellerData.value, t.theirPsbt.value, c.rpc).signed;
  }

  /** The maker who buys adds the taker's signature to their own and broadcasts. */
  lemma BuyerFinishes(w: World, me: string, t: TradeState, c: Call, nameOut: OutPoint, q: Psbt, theirs: Psbt)
    requires Consistent(w, me, t) && LawfulCall(w, me, t.counterparty, c) && Cooperative(w, me, c)
    requires t.state == Initiated && GetOrderType(me, t) == Bid && GetRole(me, t) == Maker && t.sellerData.Some?
    requires t.ourPsbt == Some(q) && t.theirPsbt == Some(Encoded(theirs)) && theirs.tx == q.tx
    requires Awaits(w, t.counterparty, nameOut, true, q)
    requires forall i :: 0 <= i < |q.inputs| && q.tx.vin[i] == nameOut ==> theirs.inputs[i].signed
    ensures var r := HasReply(w, me, t, c.locked, c.rpc);
            r.trade == t.(state := Pending) && r.outcome == Silent && r.broadcast == Some(q.tx)
  {
    hide Consistent, SellerSigns, BuyerBuilds, OutputsVerdict;
    var final := c.rpc.combine(theirs, q).value;
    assert Combines(theirs, q, final);
    assert IsComplete(final);
  }

  // The four kinds of turns, from the message that comes in.

  lemma SellerOpensTurn(w: World, me: string, t: TradeState, msg: Message, c: Call, nameOut: OutPoint)
    returns (sd: SellerData)
    requires Consistent(w, me, t) && t.state == Initiated && t.sellerData.None? && t.theirPsbt.None?
    requires GetOrderType(me, t) == Ask && msg.sellerData.None? && msg.psbt.None?
    requires LawfulCall(w, me, t.counterparty, c) && Cooperative(w, me, c)
    requires c.rpc.nameShow == Some(nameOut) && nameOut !in c.locked
    ensures Turn(w, me, t, msg, c)
            == Ends(t.(sellerData := Some(sd)), c.locked + {nameOut},
                    Sent(BasicMessage(t).(sellerData := Some(sd.(nameOutput := None)))))
    ensures sd.nameAddress.Some? && sd.chiAddress.Some? && sd.nameAddress != sd.chiAddress
            && sd.nameOutput == Some(nameOut)
    ensures w.ownerOf(nameOut) == me
  {
    sd := SellerOpens(w, me, t, c, nameOut);
  }

  lemma BuyerTurn(w: World, me: string, t: TradeState, msg: Message, sd: SellerData, c: Call, nameOut: OutPoint)
    returns (p: Psbt, q: Psbt)
    requires Consistent(w, me, t) && LawfulCall(w, me, t.counterparty, c) && Cooperative(w, me, c)
    requires t.state == Initiated && t.sellerData.None? && t.ourPsbt.None? && t.theirPsbt.None?
    requires GetOrderType(me, t) == Bid && t.counterparty != me
    requires msg.sellerData == Some(sd) && msg.psbt.None?
    requires sd.nameAddress.Some? && sd.chiAddress.Some? && sd.nameAddress != sd.chiAddress && sd.nameOutput.None?
    requires c.rpc.buyerView.Some? && CheckForBuyerTrade(c.rpc.buyerView.value) == Some(nameOut)
    requires w.ownerOf(nameOut) == t.counterparty
    requires var p := GetParams(me, t); GetTotalSat(p.price, p.units).Fits? && GetTotalSat(p.price, p.units).sat >= 0
    ensures p.tx == q.tx && Awaits(w, t.counterparty, nameOut, false, p) && Awaits(w, t.counterparty, nameOut, true, q)
    ensures OutputsVerdict(w, GetParams(me, t), sd, q.tx) == Passed
    ensures var r := Turn(w, me, t, msg, c);
            && r.broadcast.None?
            && if GetRole(me, t) == Taker
               then r.trade == t.(sellerData := Some(sd), ourPsbt := Some(q), state := Pending)
                    && r.outcome == Sent(BasicMessage(t).(psbt := Some(Encoded(q))))
               else r.trade == t.(sellerData := Some(sd), ourPsbt := Some(q))
                    && r.outcome == Sent(BasicMessage(t).(psbt := Some(Encoded(p))))
  {
    HandleKeepsConsistent(w, me, t, msg);
    var t1 := HandleMessage(me, t, msg);
    assert t1 == t.(sellerData := Some(sd));
    hide HasReply;
    p, q := BuyerReplies(w, me, t1, c, nameOut);
  }

  lemma SellerTurn(w: World, me: string, t: TradeState, msg: Message, c: Call, nameOut: OutPoint, p: Psbt)
    returns (q: Psbt)
    requires Consistent(w, me, t) && LawfulCall(w, me, t.counterparty, c) && Cooperative(w, me, c)
    requires t.state == Initiated && t.ourPsbt.None? && t.theirPsbt.None?
    requires GetOrderType(me, t) == Ask && t.sellerData.Some? && t.sellerData.value.nameOutput == Some(nameOut)
    requires msg.sellerData.None? && msg.psbt == Some(Encoded(p))
    requires Awaits(w, me, nameOut, GetRole(me, t) == Maker, p)
    requires OutputsVerdict(w, GetParams(me, t), t.sellerData.value, p.tx) == Passed
    ensures q.tx == p.tx && forall i :: 0 <= i < |p.inputs| && p.tx.vin[i] == nameOut ==> q.inputs[i].signed
    ensures var r := Turn(w, me, t, msg, c);
            && r.trade == t.(theirPsbt := Some(Encoded(p)), ourPsbt := Some(q), state := Pending)
            && if GetRole(me, t) == Taker
               then r.outcome == Sent(BasicMessage(t).(psbt := Some(Encoded(q)))) && r.broadcast.None?
               else r.outcome == Silent && r.broadcast == Some(p.tx)
  {
    HandleKeepsConsistent(w, me, t, msg);
    var t1 := HandleMessage(me, t, msg);
    assert t1 == t.(theirPsbt := Some(Encoded(p)));
    hide HasReply;
    q := SellerReplies(w, me, t1, c, nameOut, p);
  }

  lemma BuyerFinishesTurn(w: World, me: string, t: TradeState, msg: Message, c: Call, nameOut: OutPoint, q: Psbt,
                          theirs: Psbt)
    requires Consistent(w, me, t) && LawfulCall(w, me, t.counterparty, c) && Cooperative(w, me, c)
    requires t.state == Initiated && GetOrderType(me, t) == Bid && GetRole(me, t) == Maker && t.sellerData.Some?
    requires t.ourPsbt == Some(q) && t.theirPsbt.None? && msg.sellerData.None?
    requires msg.psbt == Some(Encoded(theirs)) && theirs.tx == q.tx
    requires Awaits(w, t.counterparty, nameOut, true, q)
    requires forall i :: 0 <= i < |q.inputs| && q.tx.vin[i] == nameOut ==> theirs.inputs[i].signed
    ensures var r := Turn(w, me, t, msg, c);
            && r.trade == t.(theirPsbt := Some(Encoded(theirs)), state := Pending)
            && r.outcome == Silent && r.broadcast == Some(q.tx)
  {
    HandleKeepsConsistent(w, me, t, msg);
    var t1 := HandleMessage(me, t, msg);
    assert t1 == t.(theirPsbt := Some(Encoded(theirs)));
    hide HasReply;
    BuyerFinishes(w, me, t1, c, nameOut, q, theirs);
  }

  /** Both sides see the same verdict on the outputs, as they derive the same parameters. */
  lemma SameVerdict(w: World, p: Params, sd: SellerData, tx: Tx)
    requires sd.chiAddress.Some? && sd.nameAddress.Some?
    ensures OutputsVerdict(w, p, sd, tx) == OutputsVerdict(w, p, sd.(nameOutput := None), tx)
  {
  }

  lemma CallsAt(w: World, order: Order, units: UInt64, maker: string, taker: string, nameOut: OutPoint,
                makerCalls: nat -> Call, takerCalls: nat -> Call, n: nat)
    requires Honest(w, order, units, maker, taker, nameOut, makerCalls, takerCalls)
    ensures var seller := if order.Type() == Ask then maker else taker;
            && LawfulCall(w, maker, taker, makerCalls(n)) && Cooperative(w, maker, makerCalls(n))
            && Steady(seller, maker, nameOut, makerCalls(n))
            && LawfulCall(w, taker, maker, takerCalls(n)) && Cooperative(w, taker, takerCalls(n))
            && Steady(seller, taker, nameOut, takerCalls(n))
  {
  }

  /** A taker who buys starts with nothing but the order. */
  lemma BuyerStarts(w: World, me: string, t: TradeState, c: Call)
    requires IsNew(me, t) && GetOrderType(me, t) == Bid
    ensures var (m, t1) := TakeOrder(w, me, t, c);
            t1 == t && m == BasicMessage(t).(takingOrder := Some(TakingOrder(t.order.id.GetOr(0), t.units)))
  {
  }

  /** A taker who sells starts with the addresses, too. */
  lemma SellerStarts(w: World, me: string, t: TradeState, c: Call, nameOut: OutPoint) returns (sd: SellerData)
    requires IsNew(me, t) && GetOrderType(me, t) == Ask
    requires LawfulCall(w, me, t.counterparty, c) && Cooperative(w, me, c)
    requires c.rpc.nameShow == Some(nameOut) && nameOut !in c.locked
    ensures var (m, t1) := TakeOrder(w, me, t, c);
            && t1 == t.(sellerData := Some(sd)) && Consistent(w, me, t1)
            && m == BasicMessage(t).(sellerData := Some(sd.(nameOutput := None)),
                                     takingOrder := Some(TakingOrder(t.order.id.GetOr(0), t.units)))
    ensures sd.nameAddress.Some? && sd.chiAddress.Some? && sd.nameAddress != sd.chiAddress
            && sd.nameOutput == Some(nameOut)
    ensures w.ownerOf(nameOut) == me
  {
    sd := SellerOpens(w, me, t, c, nameOut);
  }

  /** Two sides of one new trade, whose seller's name output is known, and the total fits. */
  ghost predicate TwoSides(w: World, maker: string, u: TradeState, taker: string, t: TradeState) {
    && maker != taker && IsNew(maker, u) && IsNew(taker, t) && Consistent(w, maker, u) && Consistent(w, taker, t)
    && u.counterparty == taker && t.counterparty == maker
    && GetRole(maker, u) == Maker && GetRole(taker, t) == Taker
    && GetParams(maker, u) == GetParams(taker, t) && GetOrderType(maker, u) != GetOrderType(taker, t)
    && var p := GetParams(maker, u);
    && GetTotalSat(p.price, p.units).Fits? && GetTotalSat(p.price, p.units).sat >= 0
  }

  /** What the three turns after the first message of a taker come to. */
  ghost predicate TurnsEnd(w: World, maker: string, u: TradeState, taker: string, t: TradeState, m1: Message,
                           c1: Call, c2: Call, c3: Call, tx: Tx)
    requires Consistent(w, maker, u) && Consistent(w, taker, t)
    requires LawfulCall(w, maker, u.counterparty, c1) && LawfulCall(w, taker, t.counterparty, c2)
             && LawfulCall(w, maker, u.counterparty, c3)
  {
    var r1 := Turn(w, maker, u, m1, c1);
    && r1.outcome.Sent? && r1.broadcast.None?
    && var r2 := Turn(w, taker, t, Incoming(maker, r1.outcome.msg), c2);
    && r2.outcome.Sent? && r2.broadcast.None?
    && r2.trade.state == Pending && r2.trade.ourPsbt.Some? && r2.trade.ourPsbt.value.tx == tx
    && var r3 := Turn(w, maker, r1.trade, Incoming(taker, r2.outcome.msg), c3);
    && r3.outcome.Silent? && r3.broadcast == Some(tx)
    && r3.trade.state == Pending && r3.trade.ourPsbt.Some? && r3.trade.ourPsbt.value.tx == tx
  }

  /** The maker sells: they share addresses, the taker the signed transaction. */
  lemma MakerSellsTurns(w: World, maker: string, u: TradeState, taker: string, t: TradeState, m1: Message,
                        c1: Call, c2: Call, c3: Call, nameOut: OutPoint) returns (tx: Tx)
    requires TwoSides(w, maker, u, taker, t) && GetOrderType(maker, u) == Ask
    requires m1.sellerData.None? && m1.psbt.None?
    requires LawfulCall(w, maker, taker, c1) && LawfulCall(w, taker, maker, c2) && LawfulCall(w, maker, taker, c3)
    requires Cooperative(w, maker, c1) && Cooperative(w, taker, c2) && Cooperative(w, maker, c3)
    requires Steady(maker, maker, nameOut, c1) && Steady(maker, taker, nameOut, c2) && nameOut !in c1.locked
    ensures TurnsEnd(w, maker, u, taker, t, m1, c1, c2, c3, tx)
  {
    hide HasReply, HandleMessage, Turn, Cooperative, LawfulCall, Awaits, OutputsVerdict, Consistent, GetTotalSat,
      Extends, Measure;
    var sd := SellerOpensTurn(w, maker, u, m1, c1, nameOut);
    var r1 := Turn(w, maker, u, m1, c1);
    var p, q := BuyerTurn(w, taker, t, Incoming(maker, r1.outcome.msg), sd.(nameOutput := None), c2, nameOut);
    var r2 := Turn(w, taker, t, Incoming(maker, r1.outcome.msg), c2);
    SameVerdict(w, GetParams(maker, u), sd, q.tx);
    var s := SellerTurn(w, maker, r1.trade, Incoming(taker, r2.outcome.msg), c3, nameOut, q);
    tx := q.tx;
  }

  /** The maker buys: they share the unsigned transaction, the taker the signed one. */
  lemma MakerBuysTurns(w: World, maker: string, u: TradeState, taker: string, t: TradeState, t1: TradeState,
                       m1: Message, sd: SellerData, c1: Call, c2: Call, c3: Call, nameOut: OutPoint) returns (tx: Tx)
    requires TwoSides(w, maker, u, taker, t) && GetOrderType(maker, u) == Bid
    requires t1 == t.(sellerData := Some(sd)) && Consistent(w, taker, t1)
    requires m1.sellerData == Some(sd.(nameOutput := None)) && m1.psbt.None?
    requires sd.nameAddress.Some? && sd.chiAddress.Some? && sd.nameAddress != sd.chiAddress
             && sd.nameOutput == Some(nameOut)
    requires w.ownerOf(nameOut) == taker
    requires LawfulCall(w, maker, taker, c1) && LawfulCall(w, taker, maker, c2) && LawfulCall(w, maker, taker, c3)
    requires Cooperative(w, maker, c1) && Cooperative(w, taker, c2) && Cooperative(w, maker, c3)
    requires Steady(taker, maker, nameOut, c1)
    ensures TurnsEnd(w, maker, u, taker, t1, m1, c1, c2, c3, tx)
  {
    hide HasReply, HandleMessage, Turn, Cooperative, LawfulCall, Awaits, OutputsVerdict, Consistent, GetTotalSat,
      Extends, Measure;
    var p, q := BuyerTurn(w, maker, u, m1, sd.(nameOutput := None), c1, nameOut);
    var r1 := Turn(w, maker, u, m1, c1);
    SameVerdict(w, GetParams(taker, t), sd, q.tx);
    var s := SellerTurn(w, taker, t1, Incoming(maker, r1.outcome.msg), c2, nameOut, p);
    var r2 := Turn(w, taker, t1, Incoming(maker, r1.outcome.msg), c2);
    BuyerFinishesTurn(w, maker, r1.trade, Incoming(taker, r2.outcome.msg), c3, nameOut, q, s);
    tx := q.tx;
  }

  /** A conversation of two replies, taken apart. */
  lemma ThreeTurns(w: World, me: string, t: TradeState, other: string, u: TradeState, m1: Message,
                   ourCalls: nat -> Call, theirCalls: nat -> Call)
    requires Consistent(w, me, t) && Consistent(w, other, u)
    requires forall k :: LawfulCall(w, me, t.counterparty, ourCalls(k))
    requires forall k :: LawfulCall(w, other, u.counterparty, theirCalls(k))
    requires var r1 := Turn(w, me, t, m1, ourCalls(1));
             && r1.outcome.Sent? && r1.broadcast.None?
             && var r2 := Turn(w, other, u, Incoming(me, r1.outcome.msg), theirCalls(2));
             && r2.outcome.Sent? && r2.broadcast.None?
             && !Turn(w, me, r1.trade, Incoming(other, r2.outcome.msg), ourCalls(3)).outcome.Sent?
    ensures var r1 := Turn(w, me, t, m1, ourCalls(1));
            var r2 := Turn(w, other, u, Incoming(me, r1.outcome.msg), theirCalls(2));
            var r3 := Turn(w, me, r1.trade, Incoming(other, r2.outcome.msg), ourCalls(3));
            Talk(w, me, t, other, u, m1, ourCalls, theirCalls, 1)
            == Transcript([r1.outcome.msg, r2.outcome.msg], r3.trade, r2.trade,
                          if r3.broadcast.Some? then [r3.broadcast.value] else [])
  {
    hide Turn, Consistent, LawfulCall, Measure;
    var r1 := Turn(w, me, t, m1, ourCalls(1));
    var m2 := Incoming(me, r1.outcome.msg);
    var r2 := Turn(w, other, u, m2, theirCalls(2));
    var m3 := Incoming(other, r2.outcome.msg);
    var talk3 := Talk(w, me, r1.trade, other, r2.trade, m3, ourCalls, theirCalls, 3);
    assert talk3.messages == [];
    var talk2 := Talk(w, other, u, me, r1.trade, m2, theirCalls, ourCalls, 2);
    assert talk2.messages == [r2.outcome.msg];
  }

  /** Both role assignments, from the taker's first message. */
  lemma TurnsFromStart(w: World, maker: string, u: TradeState, taker: string, t: TradeState,
                       c0: Call, c1: Call, c2: Call, c3: Call, nameOut: OutPoint) returns (tx: Tx)
    requires TwoSides(w, maker, u, taker, t)
    requires LawfulCall(w, taker, maker, c0) && LawfulCall(w, maker, taker, c1)
    requires LawfulCall(w, taker, maker, c2) && LawfulCall(w, maker, taker, c3)
    requires Cooperative(w, taker, c0) && Cooperative(w, maker, c1) && Cooperative(w, taker, c2)
             && Cooperative(w, maker, c3)
    requires var seller := if GetOrderType(maker, u) == Ask then maker else taker;
             Steady(seller, taker, nameOut, c0) && Steady(seller, maker, nameOut, c1)
                 && Steady(seller, taker, nameOut, c2)
    requires nameOut !in (if GetOrderType(maker, u) == Ask then c1 else c0).locked
    ensures var (m, t1) := TakeOrder(w, taker, t, c0);
            && Consistent(w, taker, t1) && t1.counterparty == maker
            && TurnsEnd(w, maker, u, taker, t1, Incoming(taker, m), c1, c2, c3, tx)
  {
    hide HasReply, HandleMessage, Turn, TakeOrder, TurnsEnd, LawfulCall, Cooperative, Consistent, GetTotalSat, Measure;
    var m1 := Incoming(taker, TakeOrder(w, taker, t, c0).0);
    if GetOrderType(maker, u) == Ask {
      BuyerStarts(w, taker, t, c0);
      tx := MakerSellsTurns(w, maker, u, taker, t, m1, c1, c2, c3, nameOut);
    } else {
      var sd := SellerStarts(w, taker, t, c0, nameOut);
      tx := MakerBuysTurns(w, maker, u, taker, t, TakeOrder(w, taker, t, c0).1, m1, sd, c1, c2, c3, nameOut);
    }
  }

  /** A negotiation is its first message and the conversation that follows. */
  lemma NegotiateUnfolds(w: World, order: Order, units: UInt64, maker: string, taker: string, now: int, later: int,
                         makerCalls: nat -> Call, takerCalls: nat -> Call)
    requires order.account == Some(maker) && maker != taker
    requires forall k :: LawfulCall(w, maker, taker, makerCalls(k))
    requires forall k :: LawfulCall(w, taker, maker, takerCalls(k))
    ensures var (t, u) := (NewTrade(order, units, maker, now), NewTrade(order, units, taker, later));
            var (m, t1) := TakeOrder(w, taker, t, takerCalls(0));
            && Consistent(w, maker, u) && Consistent(w, taker, t1) && t1.counterparty == maker
            && var talk := Talk(w, maker, u, taker, t1, Incoming(taker, m), makerCalls, takerCalls, 1);
            Negotiate(w, order, units, maker, taker, now, later, makerCalls, takerCalls)
            == talk.(messages := [m] + talk.messages)
  {
    hide HasReply, Talk, Lawful;
    var t := NewTrade(order, units, maker, now);
    var c := takerCalls(0);
    assert LawfulCall(w, taker, maker, c);
    ReplyKeepsConsistent(w, taker, t, c.locked, c.rpc);
    ReplyDecreases(w, taker, t, c.locked, c.rpc);
  }

  /**
   * Honest completion, for either role assignment: the negotiation ends after
   * exactly three messages, with both sides pending on the one transaction that
   * was broadcast, which the maker only does once it is fully signed.
   */
  lemma HonestTradesComplete(w: World, order: Order, units: UInt64, maker: string, taker: string, now: int, later: int,
                             nameOut: OutPoint, makerCalls: nat -> Call, takerCalls: nat -> Call)
    requires Honest(w, order, units, maker, taker, nameOut, makerCalls, takerCalls)
    ensures exists tx :: BothOn(Negotiate(w, order, units, maker, taker, now, later, makerCalls, takerCalls), tx)
  {
    hide *;
    var t := NewTrade(order, units, maker, now);
    var u := NewTrade(order, units, taker, later);
    var c0, c1, c2, c3 := takerCalls(0), makerCalls(1), takerCalls(2), makerCalls(3);
    CallsAt(w, order, units, maker, taker, nameOut, makerCalls, takerCalls, 0);
    CallsAt(w, order, units, maker, taker, nameOut, makerCalls, takerCalls, 1);
    CallsAt(w, order, units, maker, taker, nameOut, makerCalls, takerCalls, 2);
    CallsAt(w, order, units, maker, taker, nameOut, makerCalls, takerCalls, 3);
    SidesOf(w, order, units, maker, taker, now, later, nameOut, makerCalls, takerCalls);
    NegotiateUnfolds(w, order, units, maker, taker, now, later, makerCalls, takerCalls);
    var tx := TurnsFromStart(w, maker, u, taker, t, c0, c1, c2, c3, nameOut);
    var (m, t1) := TakeOrder(w, taker, t, c0);
    TalkEnds(w, maker, u, taker, t1, Incoming(taker, m), makerCalls, takerCalls, tx);
    EndsOn(Talk(w, maker, u, taker, t1, Incoming(taker, m), makerCalls, takerCalls, 1), m, tx);
  }

  lemma SidesOf(w: World, order: Order, units: UInt64, maker: string, taker: string, now: int, later: int,
                nameOut: OutPoint, makerCalls: nat -> Call, takerCalls: nat -> Call)
    requires Honest(w, order, units, maker, taker, nameOut, makerCalls, takerCalls)
    ensures order.account == Some(maker) && maker != taker
    ensures forall k :: LawfulCall(w, maker, taker, makerCalls(k))
    ensures forall k :: LawfulCall(w, taker, maker, takerCalls(k))
    ensures nameOut !in (if order.Type() == Ask then makerCalls(1) else takerCalls(0)).locked
    ensures var (t, u) := (NewTrade(order, units, maker, now), NewTrade(order, units, taker, later));
            && TwoSides(w, maker, u, taker, t) && u.counterparty == taker && t.counterparty == maker
            && GetOrderType(maker, u) == order.Type() && UsableSellerData(taker, t)
  {
    ParamsAgree(order, units, maker, taker, now, later);
  }

  /** Half of the end state: what a conversation of two replies leaves. */
  ghost predicate TalkedTo(r: Transcript, tx: Tx) {
    && |r.messages| == 2 && r.broadcasts == [tx]
    && r.mine.state == Pending && r.mine.ourPsbt.Some? && r.mine.ourPsbt.value.tx == tx
    && r.theirs.state == Pending && r.theirs.ourPsbt.Some? && r.theirs.ourPsbt.value.tx == tx
  }

  lemma EndsOn(r: Transcript, m: Message, tx: Tx)
    requires TalkedTo(r, tx)
    ensures BothOn(r.(messages := [m] + r.messages), tx)
  {
  }

  lemma TalkEnds(w: World, maker: string, u: TradeState, taker: string, t: TradeState, m1: Message,
                 makerCalls: nat -> Call, takerCalls: nat -> Call, tx: Tx)
    requires Consistent(w, maker, u) && Consistent(w, taker, t)
    requires forall k :: LawfulCall(w, maker, u.counterparty, makerCalls(k))
    requires forall k :: LawfulCall(w, taker, t.counterparty, takerCalls(k))
    requires TurnsEnd(w, maker, u, taker, t, m1, makerCalls(1), takerCalls(2), makerCalls(3), tx)
    ensures TalkedTo(Talk(w, maker, u, taker, t, m1, makerCalls, takerCalls, 1), tx)
  {
    hide Turn, Talk, Consistent, LawfulCall, Measure;
    ThreeTurns(w, maker, u, taker, t, m1, makerCalls, takerCalls);
  }
}
