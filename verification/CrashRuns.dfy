/**
 * Runs in which a CHECK fails, for every order that is not safe, offered or
 * taken: so the conditions on orders are exact over whole runs.
 */
module CrashRuns {
  import opened Amounts
  import opened Chain
  import opened Checker
  import opened NodeCrashes
  import opened NodeOrders
  import opened NodeTrades
  import opened Nodes
  import opened Orders
  import opened OwnOrders
  import opened Psbts
  import opened TradeRules
  import opened TradeRuns
  import opened Wrappers

  /** Answers of a wallet that shows and locks a name output and gives out two addresses, and no other. */
  function NameWallet(out: OutPoint, nameAddress: string, chiAddress: string): Rpc {
    Rpc(Some(out), false, Some((nameAddress, chiAddress)), None, (addr, total) => None, false, (p, q) => None,
        p => None, (p, q) => None, false, false)
  }

  /** Answers with which the check of a seller passes, and no other. */
  function Viewing(out: OutPoint): Rpc {
    var view := BuyerView(true, true, out, Some(Genesis(map[])), Some(Genesis(map[])));
    Rpc(None, false, None, Some(view), (addr, total) => None, false, (p, q) => None, p => None, (p, q) => None, false,
        false)
  }

  /** The answers a trader on some side needs to get to the CHECKs. */
  function Answers(side: OrderType, out: OutPoint, a: string, b: string): Rpc {
    if side == Ask then NameWallet(out, a, b) else Viewing(out)
  }

  /** The seller has the name output, and addresses if that is us. */
  ghost predicate HasName(w: World, me: string, someone: string, side: OrderType, out: OutPoint, a: string, b: string) {
    && a != b
    && if side == Ask
       then w.addressOwner(a) == w.addressOwner(b) == w.ownerOf(out) == me && w.nameOf(out) == Some(me)
       else w.nameOf(out) == Some(someone)
  }

  lemma AnswersAreLawful(w: World, me: string, someone: string, side: OrderType, out: OutPoint, a: string, b: string,
                         locked: set<OutPoint>)
    requires HasName(w, me, someone, side, out, a, b)
    ensures Lawful(w, me, locked, Answers(side, out, a, b)) && LawfulView(w, someone, Answers(side, out, a, b))
  {
  }

  /** A message for a trade with all a seller or a buyer could send: two addresses and a PSBT. */
  function Everything(someone: string, id: Identifier, a: string, b: string, psbt: Psbt): Message {
    Message(someone, id, None, Some(SellerData(Some(a), Some(b), None)), Some(Encoded(psbt)))
  }

  /** A trade that has just begun, or has shared the seller's addresses, and will fail the CHECKs. */
  predicate IsDoomed(me: string, t: TradeState) {
    && t.state == Initiated && t.ourPsbt.None? && t.theirPsbt.None? && !TradeSurvives(me, t)
    && (GetOrderType(me, t) == Bid ==> t.sellerData.None?)
  }

  /** The first such message either fails a CHECK or makes a seller share addresses, and the next one fails it. */
  lemma HandleDoomed(n: Node, out: OutPoint, a: string, b: string, psbt: Psbt)
    requires |n.trades| == 1 && IsDoomed(n.account, n.trades[0].trade) && a != b
    ensures var t := n.trades[0].trade;
            var (me, side) := (n.account, GetOrderType(n.account, t));
            var msg := Everything(t.counterparty, GetIdentifier(t), a, b, psbt);
            var (t1, rpc) := (HandleMessage(me, t, msg), Answers(side, out, a, b));
            && FindMatch(n.trades, msg, 0) == 0
            && t1 == t.(sellerData := if side == Ask then t.sellerData else msg.sellerData, theirPsbt := msg.psbt)
            && (FailsCheck(n, AnyMessage(msg, rpc)) <==> t1.sellerData.Some?)
  {
    hide Survives;
    var t := n.trades[0].trade;
    var msg := Everything(t.counterparty, GetIdentifier(t), a, b, psbt);
    assert Matches(t, msg) && FindMatch(n.trades, msg, 0) == 0;
    assert CheckForBuyerTrade(Viewing(out).buyerView.value).Some?;
  }

  /** A seller shares addresses, and comes to the CHECKs at the next message. */
  lemma SharesAddresses(w: World, n: Node, out: OutPoint, a: string, b: string, psbt: Psbt)
    requires !n.crashed && |n.trades| == 1 && IsDoomed(n.account, n.trades[0].trade) && a != b && out !in n.wallet
    requires n.trades[0].trade.sellerData.None? && GetOrderType(n.account, n.trades[0].trade) == Ask
    ensures var t := n.trades[0].trade;
            var e := AnyMessage(Everything(t.counterparty, GetIdentifier(t), a, b, psbt), NameWallet(out, a, b));
            !Step(w, n, e).crashed && FailsCheck(Step(w, n, e), e)
  {
    hide Survives, ReplyLog;
    var (me, t, rpc) := (n.account, n.trades[0].trade, NameWallet(out, a, b));
    var msg := Everything(t.counterparty, GetIdentifier(t), a, b, psbt);
    HandleDoomed(n, out, a, b, psbt);
    var t1 := t.(theirPsbt := msg.psbt);
    assert Reply(w, me, t1, n.wallet, rpc) == ReplySellerData(t1, n.wallet, rpc);
    var t2 := ReplySellerData(t1, n.wallet, rpc).trade;
    var m := Step(w, n, AnyMessage(msg, rpc));
    assert m.trades == [n.trades[0].(trade := t2)];
    assert Matches(t2, msg) && FindMatch(m.trades, msg, 0) == 0 && HandleMessage(me, t2, msg) == t2;
  }

  /** A trade with a price and units that fail the CHECKs: two messages of the counterparty end the process. */
  lemma DoomedTradesCrash(w: World, n: Node, out: OutPoint, a: string, b: string, psbt: Psbt)
    requires Sound(w, n) && !n.crashed && |n.trades| == 1 && IsDoomed(n.account, n.trades[0].trade)
    requires var t := n.trades[0].trade;
             HasName(w, n.account, t.counterparty, GetOrderType(n.account, t), out, a, b)
             && (t.sellerData.None? ==> out !in n.wallet)
    ensures var t := n.trades[0].trade;
            var e := AnyMessage(Everything(t.counterparty, GetIdentifier(t), a, b, psbt),
                                Answers(GetOrderType(n.account, t), out, a, b));
            && LawfulStep(w, n, e) && LawfulStep(w, Step(w, n, e), e) && Step(w, Step(w, n, e), e).crashed
  {
    hide Sound, Step, IsDoomed, HasName, FailsCheck, Lawful, LawfulView;
    var (me, t) := (n.account, n.trades[0].trade);
    var side := GetOrderType(me, t);
    var e := AnyMessage(Everything(t.counterparty, GetIdentifier(t), a, b, psbt), Answers(side, out, a, b));
    var m := Step(w, n, e);
    StepKeepsAccount(w, n, e.msg, e.rpc);
    DoomedAddresses(w, n, out, a, b);
    AnswersAreLawful(w, me, t.counterparty, side, out, a, b, n.wallet);
    AnswersAreLawful(w, me, t.counterparty, side, out, a, b, m.wallet);
    HandleDoomed(n, out, a, b, psbt);
    StepCrashesExactly(w, n, e);
    if m.crashed {
      CrashedStays(w, m, e);
    } else {
      SharesAddresses(w, n, out, a, b, psbt);
      StepSound(w, n, e);
      StepCrashesExactly(w, m, e);
    }
  }

  lemma DoomedAddresses(w: World, n: Node, out: OutPoint, a: string, b: string)
    requires |n.trades| == 1
    requires var t := n.trades[0].trade; HasName(w, n.account, t.counterparty, GetOrderType(n.account, t), out, a, b)
    ensures a != b
  {
  }

  lemma StepKeepsAccount(w: World, n: Node, msg: Message, rpc: Rpc)
    ensures Step(w, n, AnyMessage(msg, rpc)).account == n.account
  {
    hide Deliver, Reply, HandleMessage;
    DeliverEffect(w, n, msg, rpc);
  }

  lemma CrashedStays(w: World, n: Node, e: Event)
    requires n.crashed
    ensures Step(w, n, e) == n
  {
  }

  // ---------------------------------------------------------------------------
  // Orders on offer.

  /** The message that takes some units of the first order of an account. */
  function Taking(account: string, someone: string, units: Int64): Message {
    Message(someone, Identifier(account, 0), Some(TakingOrder(0, ToUInt64(units))), None, None)
  }

  /** The first steps of a trade on the first order: it is posted, locked, and the trade is added. */
  function FirstSteps(account: string, someone: string, o: Order, units: Int64, now: int): seq<Event> {
    [AddOrder(o), TakingMessage(Taking(account, someone, units)), Continue(0, now, true)]
  }

  lemma FirstTrade(w: World, account: string, wallet: set<OutPoint>, someone: string, o: Order, units: Int64, now: int)
    requires someone != account && !o.locked && CheckOrder(Copy(account, 0, Stored(o)), units)
    ensures var events := FirstSteps(account, someone, o, units, now);
            var n := Run(w, NewNode(account, wallet), events);
            && LawfulRun(w, NewNode(account, wallet), events) && !n.crashed && n.account == account
            && n.wallet == wallet
            && n.trades == [Numbered(0, NewTrade(Copy(account, 0, Stored(o)), ToUInt64(units), someone, now))]
  {
    hide CheckOrder;
    var (e1, e2) := (AddOrder(o), TakingMessage(Taking(account, someone, units)));
    var e3 := Continue(0, now, true);
    var n0 := NewNode(account, wallet);
    var n1 := Step(w, n0, e1);
    var n2 := Step(w, n1, e2);
    var copy := Copy(account, 0, Stored(o));
    assert n1.orders[0] == Stored(o) && n2.jobs == [Taken(copy, e2.msg)];
    assert ToInt64(ToUInt64(units)) == units;
    RunThree(w, n0, e1, e2, e3);
  }

  /** Three steps that ask neither wallet nor chain. */
  lemma RunThree(w: World, n: Node, e1: Event, e2: Event, e3: Event)
    ensures Run(w, n, [e1, e2, e3]) == Step(w, Step(w, Step(w, n, e1), e2), e3)
    ensures (forall e :: e in [e1, e2, e3] ==> !e.TakeOrder? && !e.AnyMessage?) ==> LawfulRun(w, n, [e1, e2, e3])
  {
    hide Step;
    assert [] + [e1] == [e1] && [e1] + [e2] == [e1, e2] && [e1, e2] + [e3] == [e1, e2, e3];
    RunOn(w, n, [], e1);
    RunOn(w, n, [e1], e2);
    RunOn(w, n, [e1, e2], e3);
  }

  /** What ends the process of whoever offers an order that is not safe. */
  function OfferRun(account: string, someone: string, o: Order, now: int, out: OutPoint, a: string, b: string,
                    psbt: Psbt): seq<Event> {
    var e := AnyMessage(Everything(someone, Identifier(account, 0), a, b, psbt), Answers(o.Type(), out, a, b));
    FirstSteps(account, someone, o, WorstUnits(o), now) + [e] + [e]
  }

  /**
   * Anybody can end the process of a maker whose order is not safe: they take
   * its worst units and then send two addresses and any PSBT, twice.
   */
  lemma UnsafeOrdersCrash(w: World, account: string, wallet: set<OutPoint>, someone: string, o: Order, now: int,
                          out: OutPoint, a: string, b: string, psbt: Psbt)
    requires someone != account && !o.locked && !SafeOrder(o) && out !in wallet
    requires HasName(w, account, someone, o.Type(), out, a, b)
    ensures var events := OfferRun(account, someone, o, now, out, a, b, psbt);
            LawfulRun(w, NewNode(account, wallet), events) && Run(w, NewNode(account, wallet), events).crashed
  {
    hide Run, LawfulRun, Step, LawfulStep, SafeOrder, Survives, CheckOrder, Everything, Answers, HasName, FirstSteps,
         Sound;
    var (n0, units) := (NewNode(account, wallet), WorstUnits(o));
    var start := FirstSteps(account, someone, o, units, now);
    var e := AnyMessage(Everything(someone, Identifier(account, 0), a, b, psbt), Answers(o.Type(), out, a, b));
    StoredIsUnsafe(account, o);
    FirstTrade(w, account, wallet, someone, o, units, now);
    RunsAreSound(w, account, wallet, start);
    assert ToInt64(ToUInt64(units)) == units;
    DoomedTradesCrash(w, Run(w, n0, start), out, a, b, psbt);
    RunOn(w, n0, start, e);
    RunOn(w, n0, start + [e], e);
  }

  lemma StoredIsUnsafe(account: string, o: Order)
    requires !SafeOrder(o)
    ensures CheckOrder(Copy(account, 0, Stored(o)), WorstUnits(o))
    ensures !Survives(o.Type(), Price(o), WorstUnits(o))
  {
    hide Survives;
    assert !SafeOrder(Stored(o)) && WorstUnits(Stored(o)) == WorstUnits(o);
    SafeOrderIsExact(account, 0, Stored(o));
  }

  /** All that the user does in a run is to offer an order. */
  ghost predicate OnlyOffers(events: seq<Event>, o: Order) {
    forall e :: e in events ==> !e.CancelOrders? && !e.TakeOrder? && (e.AddOrder? ==> e.order == o)
  }

  lemma {:induction false} OnlyOffersIsCareful(w: World, n: Node, events: seq<Event>, o: Order)
    requires OnlyOffers(events, o) && SafeOrder(o) && !o.locked
    ensures CarefulRun(w, n, events)
  {
    hide Run, SafeOrder;
    if events != [] {
      OnlyOffersIsCareful(w, n, events[..|events| - 1], o);
    }
  }

  /**
   * The condition on an order is exact over whole runs: offering it can never end
   * the process if it is safe, whatever messages arrive, and can otherwise.
   */
  lemma SafeOrdersExactly(w: World, account: string, wallet: set<OutPoint>, someone: string, o: Order, now: int,
                          out: OutPoint, a: string, b: string, psbt: Psbt)
    requires someone != account && !o.locked && out !in wallet
    requires HasName(w, account, someone, o.Type(), out, a, b)
    ensures SafeOrder(o) <==>
              forall events :: OnlyOffers(events, o) && LawfulRun(w, NewNode(account, wallet), events) ==>
                                 !Run(w, NewNode(account, wallet), events).crashed
  {
    hide Run, LawfulRun, CarefulRun, SafeOrder, HasName, Answers, Everything, Sound, Exclusive, Priced;
    var n0 := NewNode(account, wallet);
    if SafeOrder(o) {
      forall events | OnlyOffers(events, o) && LawfulRun(w, n0, events) ensures !Run(w, n0, events).crashed {
        OnlyOffersIsCareful(w, n0, events, o);
        CarefulRunsDoNotCrash(w, account, wallet, events);
      }
    } else {
      UnsafeOrdersCrash(w, account, wallet, someone, o, now, out, a, b, psbt);
      assert OnlyOffers(OfferRun(account, someone, o, now, out, a, b, psbt), o);
    }
  }

  // ---------------------------------------------------------------------------
  // Orders that are taken.

  /** What ends the process of whoever takes units of an order that fail the CHECKs on their side. */
  function TakeRun(o: Order, units: Int64, now: int, out: OutPoint, a: string, b: string, psbt: Psbt): seq<Event> {
    var (maker, rpc) := (o.account.GetOr(""), Answers(TakersSide(o), out, a, b));
    var e := AnyMessage(Everything(maker, Identifier(maker, o.id.GetOr(0)), a, b, psbt), rpc);
    [TakeOrder(o, units, now, rpc)] + [e] + [e]
  }

  /** The taker's first step: a buyer waits, a seller shares addresses. */
  lemma FirstTake(w: World, account: string, wallet: set<OutPoint>, o: Order, units: Int64, now: int, out: OutPoint,
                  a: string, b: string)
    requires CheckOrder(o, units) && o.account.GetOr("") != account && out !in wallet
    requires !Survives(TakersSide(o), Price(o), units)
    ensures var n := Step(w, NewNode(account, wallet), TakeOrder(o, units, now, Answers(TakersSide(o), out, a, b)));
            && !n.crashed && n.account == account && |n.trades| == 1
            && var t := n.trades[0].trade;
            && t.order == o && t.counterparty == o.account.GetOr("") && IsDoomed(account, t)
            && GetOrderType(account, t) == TakersSide(o) && (TakersSide(o) == Ask ==> t.sellerData.Some?)
            && (TakersSide(o) == Bid ==> n.wallet == wallet)
  {
    hide CheckOrder, Survives, ReplyLog;
    var (n0, rpc) := (NewNode(account, wallet), Answers(TakersSide(o), out, a, b));
    var t := NewTrade(o, ToUInt64(units), o.account.GetOr(""), now);
    assert ToInt64(ToUInt64(units)) == units;
    if TakersSide(o) == Ask {
      assert Reply(w, account, t, wallet, rpc) == ReplySellerData(t, wallet, rpc);
    } else {
      assert Reply(w, account, t, wallet, rpc) == Ends(t, wallet, Silent);
    }
  }

  /** The maker of an order can end the process of a taker whose side it does not suit. */
  lemma UnsafeTakesCrash(w: World, account: string, wallet: set<OutPoint>, o: Order, units: Int64, now: int,
                         out: OutPoint, a: string, b: string, psbt: Psbt)
    requires CheckOrder(o, units) && o.account.GetOr("") != account && out !in wallet
    requires !Survives(TakersSide(o), Price(o), units)
    requires HasName(w, account, o.account.GetOr(""), TakersSide(o), out, a, b)
    ensures var events := TakeRun(o, units, now, out, a, b, psbt);
            LawfulRun(w, NewNode(account, wallet), events) && Run(w, NewNode(account, wallet), events).crashed
  {
    hide Run, LawfulRun, Step, Lawful, LawfulView, Survives, CheckOrder, Everything, Answers, HasName, Sound, IsDoomed;
    var (n0, maker, rpc) := (NewNode(account, wallet), o.account.GetOr(""), Answers(TakersSide(o), out, a, b));
    var start := TakeOrder(o, units, now, rpc);
    var e := AnyMessage(Everything(maker, Identifier(maker, o.id.GetOr(0)), a, b, psbt), rpc);
    AnswersAreLawful(w, account, maker, TakersSide(o), out, a, b, wallet);
    FirstTake(w, account, wallet, o, units, now, out, a, b);
    RunNone(w, n0);
    RunOn(w, n0, [], start);
    assert [] + [start] == [start];
    RunsAreSound(w, account, wallet, [start]);
    DoomedTradesCrash(w, Run(w, n0, [start]), out, a, b, psbt);
    RunOn(w, n0, [start], e);
    RunOn(w, n0, [start] + [e], e);
  }

  /** All that the user does in a run is to take units of an order. */
  ghost predicate OnlyTakes(events: seq<Event>, o: Order, units: Int64) {
    forall e :: e in events ==>
                  !e.CancelOrders? && !e.AddOrder? && (e.TakeOrder? ==> e.order == o && e.units == units)
  }

  lemma {:induction false} OnlyTakesIsCareful(w: World, n: Node, events: seq<Event>, o: Order, units: Int64)
    requires OnlyTakes(events, o, units) && Survives(TakersSide(o), Price(o), units)
    ensures CarefulRun(w, n, events)
  {
    hide Run, Survives, SafeOrder;
    if events != [] {
      OnlyTakesIsCareful(w, n, events[..|events| - 1], o, units);
    }
  }

  /** The condition on units that are taken is exact over whole runs, too. */
  lemma SafeTakesExactly(w: World, account: string, wallet: set<OutPoint>, o: Order, units: Int64, now: int,
                         out: OutPoint, a: string, b: string, psbt: Psbt)
    requires CheckOrder(o, units) && o.account.GetOr("") != account && out !in wallet
    requires HasName(w, account, o.account.GetOr(""), TakersSide(o), out, a, b)
    ensures Survives(TakersSide(o), Price(o), units) <==>
              forall events :: OnlyTakes(events, o, units) && LawfulRun(w, NewNode(account, wallet), events) ==>
                                 !Run(w, NewNode(account, wallet), events).crashed
  {
    hide Run, LawfulRun, CarefulRun, Survives, CheckOrder, HasName, Answers, Everything, Sound, Exclusive, Priced;
    var n0 := NewNode(account, wallet);
    if Survives(TakersSide(o), Price(o), units) {
      forall events | OnlyTakes(events, o, units) && LawfulRun(w, n0, events) ensures !Run(w, n0, events).crashed {
        OnlyTakesIsCareful(w, n0, events, o, units);
        CarefulRunsDoNotCrash(w, account, wallet, events);
      }
    } else {
      UnsafeTakesCrash(w, account, wallet, o, units, now, out, a, b, psbt);
      assert OnlyTakes(TakeRun(o, units, now, out, a, b, psbt), o, units);
    }
  }

  // ---------------------------------------------------------------------------

  /** An order without a minimum, which validation lets pass. */
  const NO_MINIMUM := Order(None, None, Some("gold"), 0, 5, Some(Ask), Some(10), false)

  /** Anybody can end the process of a maker whose order has no minimum, by taking zero units of it. */
  lemma ZeroUnitsEndTheProcess(w: World, someone: string, now: int, out: OutPoint, a: string, b: string, psbt: Psbt)
    requires someone != "maker" && HasName(w, "maker", someone, Ask, out, a, b)
    ensures var events := OfferRun("maker", someone, NO_MINIMUM, now, out, a, b, psbt);
            LawfulRun(w, NewNode("maker", {}), events) && Run(w, NewNode("maker", {}), events).crashed
    ensures WorstUnits(NO_MINIMUM) == 0
  {
    hide Run, LawfulRun, OfferRun, HasName;
    UnsafeOrdersCrash(w, "maker", {}, someone, NO_MINIMUM, now, out, a, b, psbt);
  }

  /**
   * Cancelling an order while somebody takes it ends the process when the take is
   * refused, here because it asks for more units than are on offer.
   */
  lemma CancelledWhileLocked(w: World, someone: string, now: int)
    ensures var events := [AddOrder(NO_MINIMUM), TakingMessage(Taking("maker", someone, 6)), CancelOrders({0})]
                          + [Continue(0, now, true)] + [Continue(0, now, true)];
            LawfulRun(w, NewNode("maker", {}), events) && Run(w, NewNode("maker", {}), events).crashed
  {
    hide Run, LawfulRun;
    var (e1, e2, e3) := (AddOrder(NO_MINIMUM), TakingMessage(Taking("maker", someone, 6)), CancelOrders({0}));
    var (n0, e) := (NewNode("maker", {}), Continue(0, now, true));
    LockedAndCancelled(w, someone);
    RunOn(w, n0, [e1, e2, e3], e);
    RunOn(w, n0, [e1, e2, e3] + [e], e);
    RunThree(w, n0, e1, e2, e3);
    var n3 := Run(w, n0, [e1, e2, e3]);
    RefusedThenCrashed(w, n3, Copy("maker", 0, Stored(NO_MINIMUM)), Taking("maker", someone, 6), now);
  }

  lemma LockedAndCancelled(w: World, someone: string)
    ensures var n := Run(w, NewNode("maker", {}),
                         [AddOrder(NO_MINIMUM), TakingMessage(Taking("maker", someone, 6)), CancelOrders({0})]);
            && !n.crashed && n.orders == map[]
            && n.jobs == [Taken(Copy("maker", 0, Stored(NO_MINIMUM)), Taking("maker", someone, 6))]
  {
    var (e1, e2, e3) := (AddOrder(NO_MINIMUM), TakingMessage(Taking("maker", someone, 6)), CancelOrders({0}));
    var n0 := NewNode("maker", {});
    var n1 := Step(w, n0, e1);
    assert n1.orders == map[0 := Stored(NO_MINIMUM)];
    RunThree(w, n0, e1, e2, e3);
  }

  lemma RefusedThenCrashed(w: World, n: Node, o: Order, m: Message, now: int)
    requires !n.crashed && n.orders == map[] && n.jobs == [Taken(o, m)] && m.takingOrder.Some?
    requires !CheckOrder(o, ToInt64(m.takingOrder.value.units))
    ensures Step(w, Step(w, n, Continue(0, now, true)), Continue(0, now, true)).crashed
  {
    hide CheckOrder;
    assert OrderTaken(n, 0, now).jobs == [Refused(o.id.GetOr(0))];
  }
}
