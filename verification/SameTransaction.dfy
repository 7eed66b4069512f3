/**
 * A buyer who gets to the same transaction twice: first as a taker, whose trade
 * fails, then as a maker. While the second trade is initiated, the signature of
 * the first is with the seller. It takes a reorganisation that brings the
 * name input back, and a wallet that gives the same coin again.
 */
module SameTransaction {
  import opened Amounts
  import opened Chain
  import opened Checker
  import opened NodeOrders
  import opened NodeSignatures
  import opened NodeTrades
  import opened Nodes
  import opened OneWallet
  import opened Orders
  import opened OwnOrders
  import opened Psbts
  import opened TradeRules
  import opened TradeRuns
  import opened Wrappers

  const SELLER_DATA := SellerData(Some("name addr"), Some("chi addr"), None)

  /** The buyer has the coin, the seller the name output. */
  function BuyersWorld(): World {
    World((seller, buyer, asset, units) => "move", o => if o == COIN then "buyer" else "seller", addr => "seller",
          o => if o == NAME_OUT then Some("seller") else None)
  }

  function SignCoin(p: Psbt): (q: Psbt)
    ensures q.tx == p.tx
    ensures forall i :: 0 <= i < |p.inputs| ==>
              q.inputs[i] == if p.tx.vin[i] == COIN then Input(true, "") else p.inputs[i]
  {
    Decoded(p.tx, seq(|p.inputs|, i requires 0 <= i < |p.inputs| =>
      if p.tx.vin[i] == COIN then Input(true, "") else p.inputs[i]))
  }

  function Answers(): Rpc {
    var block := Genesis(map[NAME_OUT := Some("seller")]);
    Rpc(None, false, None, Some(BuyerView(true, true, NAME_OUT, Some(block), Some(block))),
        (addr, total) => Some(Funded(addr, total)), true, (p, q) => Some(Joined(p, q)), p => Some(SignCoin(p)),
        (p, q) => None, false, false)
  }

  lemma AnswersAreLawful()
    ensures Lawful(BuyersWorld(), "buyer", {}, Answers()) && LawfulView(BuyersWorld(), "seller", Answers())
  {
    var (w, rpc) := (BuyersWorld(), Answers());
    forall addr, total ensures Funds(w, "buyer", {}, addr, total, Funded(addr, total)) {
      assert IsPayment(Funded(addr, total).tx.vout[0], addr, total);
    }
    forall p, q ensures Joins(p, q, Joined(p, q)) {}
    forall p ensures Signs(w, "buyer", p, SignCoin(p)) {}
    assert rpc.buyerView.value.nameOutput == NAME_OUT && w.nameOf(NAME_OUT) == Some("seller");
  }

  /** The transaction for one unit at a price of ten, before signing. */
  function UnsignedPsbt(): Psbt {
    Joined(Funded("chi addr", 10), NamePart(NAME_OUT, "name addr", GetXayaName("seller"), "move"))
  }

  function SignedPsbt(): Psbt {
    SignCoin(UnsignedPsbt())
  }

  /** A trade in which the buyer waits for the seller's addresses, on the terms of this transaction. */
  predicate Waits(t: TradeState) {
    && t.state == Initiated && t.counterparty == "seller" && t.units == 1
    && t.sellerData.None? && t.ourPsbt.None? && t.theirPsbt.None? && t.conflictHeight.None?
    && GetOrderType("buyer", t) == Bid && t.order.priceSat == Some(10)
  }

  lemma Constructs(p: Params)
    requires p.seller == "seller"
    ensures ConstructTransaction(BuyersWorld(), p, SELLER_DATA, 10, NAME_OUT, {}, Answers())
            == (Some(UnsignedPsbt()), {COIN})
  {
    var chiPart := Funded("chi addr", 10);
    assert Answers().fund(SELLER_DATA.chiAddress.value, 10) == Some(chiPart);
    assert {} + Inputs(chiPart.tx) == {COIN};
  }

  lemma SignsOne()
    ensures AllButOneChanged(UnsignedPsbt(), SignedPsbt()) && !IsComplete(SignedPsbt())
    ensures SignedPsbt().inputs[0].signed && SignedPsbt().tx.vin == [COIN, NAME_OUT]
  {
    var (before, after) := (UnsignedPsbt(), SignedPsbt());
    assert before.tx.vin == [COIN, NAME_OUT] && before.inputs == [Input(false, ""), Input(false, "")];
    assert after.inputs[0] == Input(true, "") && after.inputs[1] == before.inputs[1];
  }

  lemma Builds(t: TradeState)
    requires Waits(t.(sellerData := None)) && t.sellerData == Some(SELLER_DATA)
    ensures BuyerBuilds(BuyersWorld(), "buyer", t, SELLER_DATA, {}, Answers())
            == Built(UnsignedPsbt(), SignedPsbt(), NAME_OUT, {COIN})
  {
    hide UnsignedPsbt, SignCoin, ConstructTransaction, BuyersWorld, AllButOneChanged, IsComplete;
    var (rpc, params) := (Answers(), GetParams("buyer", t));
    assert GetTotalSat(params.price, params.units) == Fits(10);
    assert CheckForBuyerTrade(rpc.buyerView.value) == Some(NAME_OUT);
    assert rpc.sign(UnsignedPsbt()) == Some(SignedPsbt());
    Constructs(params);
    SignsOne();
  }

  /** The seller's message with addresses, for an order of somebody. */
  function Addresses(id: Identifier): Message {
    Message("seller", id, None, Some(SELLER_DATA), None)
  }

  function AddressesEvent(id: Identifier): Event {
    AnyMessage(Addresses(id), Answers())
  }

  /** A buyer who gets the addresses builds, signs and stores the transaction, and as a taker shares it. */
  lemma GetsAddresses(n: Node, t: TradeState)
    requires !n.crashed && n.account == "buyer" && n.wallet == {}
    requires |n.trades| == 1 && n.trades[0].trade == t && Waits(t)
    ensures var t1 := t.(sellerData := Some(SELLER_DATA), ourPsbt := Some(SignedPsbt()));
            var e := AddressesEvent(GetIdentifier(t));
            var m := Step(BuyersWorld(), n, e);
            && LawfulStep(BuyersWorld(), n, e) && n.log <= m.log && !m.crashed
            && m == n.(trades := m.trades, wallet := {COIN}, log := m.log) && |m.trades| == 1
            && if GetRole("buyer", t) == Maker then m.trades[0].trade == t1
               else
                 && m.trades[0].trade == t1.(state := Pending)
                 && Replied(t1.(state := Pending), BasicMessage(t).(psbt := Some(Encoded(SignedPsbt())))) in m.log
  {
    hide BuyerBuilds, SignedPsbt, UnsignedPsbt, Lawful, LawfulView, Answers, BuyersWorld;
    var (w, rpc, msg) := (BuyersWorld(), Answers(), Addresses(GetIdentifier(t)));
    var t0 := t.(sellerData := Some(SELLER_DATA));
    AnswersAreLawful();
    Builds(t0);
    assert Matches(t, msg) && FindMatch(n.trades, msg, 0) == 0 && HandleMessage("buyer", t, msg) == t0;
    var r := Reply(w, "buyer", t0, {}, rpc);
    assert r == HasReply(w, "buyer", t0, {}, rpc);
    SentIsLogged(r, rpc);
  }

  lemma SentIsLogged(r: Result, rpc: Rpc)
    ensures r.outcome.Sent? ==> Replied(r.trade, r.outcome.msg) in ReplyLog(r, rpc)
  {
  }

  // ---------------------------------------------------------------------------

  const ASK := Order(Some("seller"), Some(0), Some("gold"), 1, 5, Some(Ask), Some(10), false)
  const BID := Order(None, None, Some("gold"), 1, 5, Some(Bid), Some(10), false)

  /** The first trade: the ask is taken, and the seller's addresses arrive. */
  function TakeIt(): seq<Event> {
    [TakeOrder(ASK, 1, 0, Answers())] + [AddressesEvent(Identifier("seller", 0))]
  }

  const CONFLICT := ChainCheck(10, Unknown, {})

  function Conflicts(): nat -> ChainCheck {
    i => CONFLICT
  }

  function ConflictTick(): Event {
    UpdateTick(0, Conflicts(), Limits(1000, 1))
  }

  /** It fails, and its coin is released. */
  function FailIt(): seq<Event> {
    [ConflictTick(), ConflictTick(), Continue(0, 0, true), Continue(0, 0, true)]
  }

  /** The second trade: the seller takes a bid, and sends the same addresses. */
  function OfferIt(): seq<Event> {
    [AddOrder(BID), TakingOne(), Continue(0, 0, true)] + [AddressesEvent(Identifier("buyer", 0))]
  }

  /** The buyer has shared a signed PSBT as a taker. */
  ghost predicate HasShared(n: Node) {
    exists t, msg :: Replied(t, msg) in n.log && msg.psbt == Some(Encoded(SignedPsbt()))
  }

  lemma Takes(n: Node)
    requires n == NewNode("buyer", {})
    ensures var m := Run(BuyersWorld(), n, TakeIt());
            && LawfulRun(BuyersWorld(), n, TakeIt()) && HasShared(m) && |m.trades| == 1
            && m == n.(trades := m.trades, wallet := {COIN}, log := m.log, nextSerial := 1)
            && var t := m.trades[0].trade;
            && t.state == Pending && t.ourPsbt == Some(SignedPsbt()) && t.conflictHeight.None? && t.order == ASK
            && t.sellerData == Some(SELLER_DATA)
  {
    hide SignedPsbt, Answers, BuyersWorld, Lawful, LawfulView, Step;
    var (w, e) := (BuyersWorld(), TakeOrder(ASK, 1, 0, Answers()));
    AnswersAreLawful();
    TakesAsk(n);
    RunNone(w, n);
    RunOn(w, n, [], e);
    assert [] + [e] == [e];
    GetsAddresses(Run(w, n, [e]), NewTrade(ASK, 1, "seller", 0));
    RunOn(w, n, [e], AddressesEvent(Identifier("seller", 0)));
  }

  lemma TakesAsk(n: Node)
    requires n == NewNode("buyer", {})
    ensures var m := Step(BuyersWorld(), n, TakeOrder(ASK, 1, 0, Answers()));
            m == n.(trades := [Numbered(0, NewTrade(ASK, 1, "seller", 0))], log := m.log, nextSerial := 1)
  {
    hide BuyersWorld, Answers, ReplyLog;
    assert ToUInt64(1) == 1;
    assert Reply(BuyersWorld(), "buyer", NewTrade(ASK, 1, "seller", 0), {}, Answers())
           == Ends(NewTrade(ASK, 1, "seller", 0), {}, Silent);
  }

  /** The conflict is seen twice, the trade fails, and the one job it leaves goes on. */
  lemma Fails(n: Node)
    requires !n.crashed && n.account == "buyer" && |n.trades| == 1 && n.jobs == [] && n.wallet == {COIN}
    requires var t := n.trades[0].trade;
             && t.state == Pending && t.ourPsbt == Some(SignedPsbt()) && t.conflictHeight.None? && t.order == ASK
             && t.sellerData == Some(SELLER_DATA)
    ensures var m := Run(BuyersWorld(), n, FailIt());
            && LawfulRun(BuyersWorld(), n, FailIt()) && n.log <= m.log
            && m == n.(trades := [], wallet := {}, log := m.log, archive := m.archive)
  {
    hide Run, LawfulRun;
    var (w, tick, e) := (BuyersWorld(), ConflictTick(), Continue(0, 0, true));
    var n2 := Step(w, Step(w, n, tick), tick);
    TicksFail(n);
    Released(n2);
    RunNone(w, n);
    RunOn(w, n, [], tick);
    RunOn(w, n, [tick], tick);
    RunOn(w, n, [tick, tick], e);
    RunOn(w, n, [tick, tick, e], e);
    assert [] + [tick] == [tick] && [tick] + [tick] == [tick, tick] && [tick, tick] + [e] == [tick, tick, e];
    assert [tick, tick, e] + [e] == FailIt();
  }

  predicate IsFailing(n: Node) {
    && |n.trades| == 1 && n.trades[0].trade.state == Pending && n.trades[0].trade.ourPsbt == Some(SignedPsbt())
  }

  lemma TicksFail(n: Node)
    requires !n.crashed && n.jobs == [] && IsFailing(n) && n.trades[0].trade.conflictHeight.None?
    ensures var m := Step(BuyersWorld(), Step(BuyersWorld(), n, ConflictTick()), ConflictTick());
            && m == n.(trades := [], archive := m.archive, jobs := m.jobs) && |m.jobs| == 1 && m.jobs[0].Finalised?
            && m.jobs[0].item.trade == n.trades[0].trade.(state := Failed, conflictHeight := Some(10))
  {
    hide SignedPsbt, Step;
    var t := n.trades[0].trade;
    SignsOne();
    assert SignedPsbt().tx.vin[0] == COIN && COIN in SignedPsbt().tx.vin && COIN !in CONFLICT.unspent;
    OneTick(n, t.(conflictHeight := Some(10)));
    var n1 := Step(BuyersWorld(), n, ConflictTick());
    OneTick(n1, t.(conflictHeight := Some(10), state := Failed));
  }

  lemma OneTick(n: Node, t: TradeState)
    requires !n.crashed && |n.trades| == 1 && n.jobs == []
    requires t == Updated(n.trades[0].trade, 0, CONFLICT, Limits(1000, 1))
    ensures var (m, x) := (Step(BuyersWorld(), n, ConflictTick()), n.trades[0].(trade := t));
            if IsFinalised(t) then m == n.(trades := [], archive := m.archive, jobs := [Finalised(x)])
            else m == n.(trades := [x], archive := m.archive)
  {
    hide Updated, IsFinalised, ArchiveAll, GetPublicInfo, Select, HandleAll, BuyersWorld;
    var x := n.trades[0].(trade := t);
    var updated := UpdateEach(n.trades, 0, Conflicts(), Limits(1000, 1));
    assert Conflicts()(0) == CONFLICT;
    assert updated == [x];
    SplitsOne(x);
  }

  lemma SplitsOne(x: Numbered)
    ensures Select([x], true) == if IsFinalised(x.trade) then [x] else []
    ensures Select([x], false) == if IsFinalised(x.trade) then [] else [x]
    ensures HandleAll([x]) == [Finalised(x)] && HandleAll([]) == []
  {
    hide IsFinalised;
    assert [x][..0] == [];
  }

  lemma Released(n: Node)
    requires !n.crashed && n.account == "buyer" && n.wallet == {COIN}
    requires |n.jobs| == 1 && n.jobs[0].Finalised?
    requires var t := n.jobs[0].item.trade;
             t.order == ASK && t.state == Failed && t.ourPsbt == Some(SignedPsbt()) && t.sellerData == Some(SELLER_DATA)
    ensures var (w, e) := (BuyersWorld(), Continue(0, 0, true));
            var m := Step(w, Step(w, n, e), e);
            n.log <= m.log && m == n.(jobs := [], wallet := {}, log := m.log)
  {
    hide SignedPsbt;
    SignsOne();
    var t := n.jobs[0].item.trade;
    assert GetOrderType("buyer", t) == Bid && ReleaseSet("buyer", t) == {COIN, NAME_OUT};
    var n1 := Step(BuyersWorld(), n, Continue(0, 0, true));
    assert n1 == n.(jobs := [Releasing(t)], log := n1.log);
  }

  const OFFERED := NewTrade(Copy("buyer", 0, Stored(BID)), 1, "seller", 0)

  function TakingOne(): Event {
    TakingMessage(Message("seller", Identifier("buyer", 0), Some(TakingOrder(0, 1)), None, None))
  }

  lemma OfferIsTaken(n: Node)
    requires !n.crashed && n.account == "buyer" && n.wallet == {} && n.trades == [] && n.jobs == []
    requires n.orders == map[] && n.nextId == 0
    ensures var m := Step(BuyersWorld(), Step(BuyersWorld(), Step(BuyersWorld(), n, AddOrder(BID)), TakingOne()),
                          Continue(0, 0, true));
            && n.log <= m.log && !m.crashed && m.account == "buyer" && m.wallet == {}
            && m.trades == [Numbered(n.nextSerial, OFFERED)]
  {
    hide BuyersWorld;
    var n1 := Step(BuyersWorld(), n, AddOrder(BID));
    assert n1.orders == map[0 := Stored(BID)];
    var n2 := Step(BuyersWorld(), n1, TakingOne());
    assert n2.jobs == [Taken(Copy("buyer", 0, Stored(BID)), TakingOne().msg)];
    assert ToInt64(1) == 1 && ToUInt64(1) == 1;
  }

  lemma Offers(n: Node)
    requires !n.crashed && n.account == "buyer" && n.wallet == {} && n.trades == [] && n.jobs == []
    requires n.orders == map[] && n.nextId == 0
    ensures var m := Run(BuyersWorld(), n, OfferIt());
            && LawfulRun(BuyersWorld(), n, OfferIt()) && n.log <= m.log && m.account == "buyer" && |m.trades| == 1
            && m.trades[0].trade == OFFERED.(sellerData := Some(SELLER_DATA), ourPsbt := Some(SignedPsbt()))
  {
    hide Run, LawfulRun, Step, Answers, BuyersWorld, SignedPsbt, Lawful, LawfulView;
    var (w, e1, e2, e3) := (BuyersWorld(), AddOrder(BID), TakingOne(), Continue(0, 0, true));
    OfferIsTaken(n);
    RunNone(w, n);
    RunOn(w, n, [], e1);
    RunOn(w, n, [e1], e2);
    RunOn(w, n, [e1, e2], e3);
    assert [] + [e1] == [e1] && [e1] + [e2] == [e1, e2] && [e1, e2] + [e3] == [e1, e2, e3];
    GetsAddresses(Run(w, n, [e1, e2, e3]), OFFERED);
    RunOn(w, n, [e1, e2, e3], AddressesEvent(Identifier("buyer", 0)));
  }

  /**
   * The exception in `InitiatedMeansNotSigned` does happen: after these ten events
   * the one active trade is initiated, and the seller has a PSBT of its
   * transaction with the buyer's signature, from the trade that has failed.
   */
  lemma SignedBefore() returns (d: Derivation)
    ensures var (w, events) := (BuyersWorld(), TakeIt() + FailIt() + OfferIt());
            var n := Run(w, NewNode("buyer", {}), events);
            && LawfulRun(w, NewNode("buyer", {}), events) && |n.trades| == 1 && n.account == "buyer"
            && n.trades[0].trade.state == Initiated && n.trades[0].trade.ourPsbt.Some?
            && Possible(w, "buyer", AllSent(n), d) && d.result.tx == n.trades[0].trade.ourPsbt.value.tx
            && SpendsNameOnce(w, "buyer", d.result.tx) && !NoneSignedBy(w, "buyer", d.result)
  {
    hide Run, LawfulRun, Step, TakeIt, FailIt, OfferIt, SignedPsbt, Answers, SendsPsbt;
    var (w, n) := (BuyersWorld(), NewNode("buyer", {}));
    Takes(n);
    var n1 := Run(w, n, TakeIt());
    var t, msg :| Replied(t, msg) in n1.log && msg.psbt == Some(Encoded(SignedPsbt()));
    Fails(n1);
    var n2 := Run(w, n1, FailIt());
    Offers(n2);
    RunAppend(w, n, TakeIt(), FailIt());
    RunAppend(w, n, TakeIt() + FailIt(), OfferIt());
    var m := Run(w, n2, OfferIt());
    assert n1.log <= m.log && Replied(t, msg) in m.log;
    SentIsIn(m, t, msg);
    d := Seen(SignedPsbt());
    SignsOne();
    assert w.ownerOf(COIN) == "buyer" && d.result.tx.vin[0] == COIN;
  }

  lemma SentIsIn(n: Node, t: TradeState, msg: Message)
    requires Replied(t, msg) in n.log && msg.psbt.Some? && msg.psbt.value.Encoded?
    ensures msg.psbt.value.psbt in AllSent(n)
  {
    assert SendsPsbt(Replied(t, msg));
  }
}
