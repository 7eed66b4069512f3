/**
 * When the process ends by a failed CHECK: the exact condition on a step, on an
 * order offered and on an order taken, and that it never does in runs whose orders meet
 * it and are not cancelled while locked. `CrashRuns` has the runs in which it does.
 */
module NodeCrashes {
  import opened Amounts
  import opened Chain
  import opened Checker
  import opened Nodes
  import opened NodeOrders
  import opened NodeTrades
  import opened Orders
  import opened OwnOrders
  import opened Psbts
  import opened TradeRules
  import opened TradeRuns
  import opened Wrappers

  /**
   * Price and units with which no CHECK fails on a side. Both CHECK that units
   * are positive. The seller CHECKs that a total is not negative and rejects one
   * that does not fit in 64 bits; the buyer CHECKs that it fits.
   */
  predicate Survives(side: OrderType, price: Int64, units: Int64) {
    && units > 0
    && if side == Ask then price * units >= 0 || price * units < -TWO_63 else -TWO_63 <= price * units < TWO_63
  }

  function Price(o: Order): Int64 {
    ToInt64(o.priceSat.GetOr(0))
  }

  /** An order that cannot be taken, or has a positive minimum and a price that suits its bounds. */
  predicate SafeOrder(o: Order) {
    var (price, min, max) := (Price(o), ToInt64(o.minUnits), ToInt64(o.maxUnits));
    o.asset.Some? && o.orderType.Some? && o.priceSat.Some? && min <= max ==>
      && min > 0
      && if o.Type() == Ask then price >= 0 || price * min < -TWO_63 else -TWO_63 <= price * max < TWO_63
  }

  /** Units with which an order that is not safe ends the process of whoever offers it. */
  function WorstUnits(o: Order): Int64 {
    if o.Type() == Ask || ToInt64(o.minUnits) <= 0 then ToInt64(o.minUnits) else ToInt64(o.maxUnits)
  }

  lemma LargerProduct(price: int, units: int, more: int)
    requires 0 <= units <= more
    ensures price >= 0 ==> 0 <= price * units <= price * more
    ensures price <= 0 ==> price * more <= price * units <= 0
  {
    assert price * more == price * units + price * (more - units);
  }

  /** The condition says exactly that nobody can take units of the order with which a CHECK fails. */
  lemma SafeOrderIsExact(account: string, id: UInt64, o: Order)
    ensures SafeOrder(o) <==>
              forall units: Int64 :: CheckOrder(Copy(account, id, o), units) ==> Survives(o.Type(), Price(o), units)
    ensures !SafeOrder(o) ==>
              CheckOrder(Copy(account, id, o), WorstUnits(o)) && !Survives(o.Type(), Price(o), WorstUnits(o))
  {
    var (price, min, max) := (Price(o), ToInt64(o.minUnits), ToInt64(o.maxUnits));
    if SafeOrder(o) {
      forall units: Int64 | CheckOrder(Copy(account, id, o), units) ensures Survives(o.Type(), price, units) {
        LargerProduct(price, min, units);
        LargerProduct(price, units, max);
      }
    } else {
      if min > 0 {
        LargerProduct(price, 1, min);
      }
      assert CheckOrder(Copy(account, id, o), WorstUnits(o)) && !Survives(o.Type(), price, WorstUnits(o));
    }
  }

  predicate TradeSurvives(me: string, t: TradeState) {
    Survives(GetOrderType(me, t), Price(t.order), ToInt64(t.units))
  }

  /** A trade passes the CHECKs, and so will all that is ever made of our own order in it. */
  predicate TradePriced(me: string, t: TradeState) {
    && TradeSurvives(me, t)
    && (GetRole(me, t) == Maker ==>
          SafeOrder(t.order) && t.order.Complete()
          && UnitsAccepted(ToInt64(t.units), t.order.minUnits, t.order.maxUnits))
  }

  predicate JobPriced(me: string, j: Job) {
    match j
    case Taken(o, _) => SafeOrder(o) && o.account == Some(me)
    case Finalised(item) => TradePriced(me, item.trade)
    case Recreating(o, _) => SafeOrder(o)
    case _ => true
  }

  /** All orders are safe, and all trades pass the CHECKs. */
  ghost predicate Priced(n: Node) {
    && (forall id :: id in n.orders ==> SafeOrder(n.orders[id]))
    && (forall i :: 0 <= i < |n.trades| ==> TradePriced(n.account, n.trades[i].trade))
    && (forall i :: 0 <= i < |n.jobs| ==> JobPriced(n.account, n.jobs[i]))
  }

  /** The side of whoever takes an order. */
  function TakersSide(o: Order): OrderType {
    if o.Type() == Bid then Ask else Bid
  }

  /** What the user has to see to: safe orders, good prices of what they take, no cancelling of locked orders. */
  predicate IsCareful(n: Node, e: Event) {
    match e
    case AddOrder(o) => !o.locked && SafeOrder(o)
    case CancelOrders(ids) => forall id :: id in ids ==> !CanUnlock(n.orders, id)
    case TakeOrder(o, units, _, _) =>
      CheckOrder(o, units) && o.account.GetOr("") != n.account ==> Survives(TakersSide(o), Price(o), units)
    case _ => true
  }

  ghost predicate CarefulRun(w: World, n: Node, events: seq<Event>) {
    events == []
    || (var k := |events| - 1;
        CarefulRun(w, n, events[..k]) && IsCareful(Run(w, n, events[..k]), events[k]))
  }

  // ---------------------------------------------------------------------------
  // Prices stay in order.

  /** The rest of a safe order is safe. */
  lemma RestIsSafe(me: string, t: TradeState)
    requires TradePriced(me, t) && GetRole(me, t) == Maker && Rest(t).Some?
    ensures SafeOrder(Rest(t).value)
  {
    var left := Remaining(t.order.maxUnits, t.units);
    assert left == t.order.maxUnits - t.units && 0 < ToInt64(left) == left <= ToInt64(t.order.maxUnits);
    LargerProduct(Price(t.order), left, ToInt64(t.order.maxUnits));
  }

  /** Trades and jobs that are old ones or in order themselves. */
  lemma PricedFrom(n: Node, m: Node)
    requires Priced(n) && m.account == n.account
    requires forall id :: id in m.orders ==> SafeOrder(m.orders[id])
    requires forall i :: 0 <= i < |m.trades| ==> m.trades[i] in n.trades || TradePriced(n.account, m.trades[i].trade)
    requires forall i :: 0 <= i < |m.jobs| ==> m.jobs[i] in n.jobs || JobPriced(n.account, m.jobs[i])
    ensures Priced(m)
  {
    hide SafeOrder, TradePriced, JobPriced;
  }

  lemma SamePrice(me: string, t: TradeState, t1: TradeState)
    requires TradePriced(me, t) && (t1.order, t1.units, t1.counterparty) == (t.order, t.units, t.counterparty)
    ensures TradePriced(me, t1)
  {
  }

  lemma DeliverPriced(w: World, n: Node, msg: Message, rpc: Rpc)
    requires Priced(n)
    ensures Priced(Deliver(w, n, msg, rpc))
  {
    hide Deliver, Reply, HandleMessage, TradePriced, SafeOrder, JobPriced;
    DeliverEffect(w, n, msg, rpc);
    var (m, i) := (Deliver(w, n, msg, rpc), FindMatch(n.trades, msg, 0));
    if i < |n.trades| {
      SamePrice(n.account, n.trades[i].trade, m.trades[i].trade);
    }
  }

  lemma TakePriced(w: World, n: Node, o: Order, units: Int64, now: int, rpc: Rpc)
    requires Priced(n) && IsCareful(n, TakeOrder(o, units, now, rpc))
    ensures Priced(Take(w, n, o, units, now, rpc))
  {
    hide Take, Reply, SafeOrder, JobPriced, CheckOrder, Survives;
    TakeEffect(w, n, o, units, now, rpc);
    TakeAccepts(w, n, o, units, now, rpc);
    var t := NewTrade(o, ToUInt64(units), o.account.GetOr(""), now);
    ReplyKeepsOrder(w, n.account, t, n.wallet, rpc);
    assert ToInt64(ToUInt64(units)) == units;
    assert o.account.GetOr("") != n.account ==> GetOrderType(n.account, t) == TakersSide(o);
  }

  lemma TakeAccepts(w: World, n: Node, o: Order, units: Int64, now: int, rpc: Rpc)
    ensures Take(w, n, o, units, now, rpc).trades != n.trades ==>
              CheckOrder(o, units) && o.account.GetOr("") != n.account
  {
    hide Reply, CheckOrder, ReplyLog;
  }

  lemma UpdateTickPriced(n: Node, now: int, checks: nat -> ChainCheck, limits: Limits)
    requires Priced(n)
    ensures Priced(UpdateAndArchive(n, now, checks, limits))
  {
    hide Select, HandleAll, Updated, SafeOrder, TradePriced;
    var m := UpdateAndArchive(n, now, checks, limits);
    var updated := UpdateEach(n.trades, now, checks, limits);
    var final := Select(updated, true);
    forall x | x in updated ensures TradePriced(n.account, x.trade) {
      var i :| 0 <= i < |updated| && updated[i] == x;
      UpdatedKeepsOrder(n.trades[i].trade, now, checks(i), limits);
      SamePrice(n.account, n.trades[i].trade, x.trade);
    }
    SelectFrom(updated, true);
    SelectFrom(updated, false);
    HandleAllIs(final);
    forall i | 0 <= i < |final| ensures JobPriced(n.account, HandleAll(final)[i]) {
      assert final[i] in updated;
    }
    forall i | 0 <= i < |m.trades| ensures TradePriced(n.account, m.trades[i].trade) {
      assert m.trades[i] in updated;
    }
  }

  lemma OrderTakenPriced(n: Node, i: nat, now: int)
    requires Priced(n) && i < |n.jobs| && n.jobs[i].Taken? && n.jobs[i].msg.takingOrder.Some?
    ensures Priced(OrderTaken(n, i, now))
  {
    hide SafeOrder, Survives, UnitsAccepted;
    var m := OrderTaken(n, i, now);
    var Taken(o, msg) := n.jobs[i];
    var units := ToInt64(msg.takingOrder.value.units);
    assert JobPriced(n.account, n.jobs[i]);
    if CheckOrder(o, units) && msg.counterparty != n.account {
      SafeOrderIsExact(n.account, o.id.value, o);
      assert Copy(n.account, o.id.value, o) == o;
      assert ToInt64(ToUInt64(units)) == units;
    }
    PricedFrom(n, m);
  }

  lemma HandlePriced(n: Node, i: nat)
    requires Priced(n) && i < |n.jobs| && n.jobs[i].Finalised?
    ensures Priced(Handle(n, i))
  {
    hide Handle, SafeOrder, TradePriced, GetRole, CanUnlock, Rest;
    var t := n.jobs[i].item.trade;
    HandleIs(n, i);
    HandleOrders(n, i);
    assert JobPriced(n.account, n.jobs[i]);
    if GetRole(n.account, t) == Maker && Rest(t).Some? {
      RestIsSafe(n.account, t);
    }
    PricedFrom(n, Handle(n, i));
  }

  lemma HandleOrders(n: Node, i: nat)
    requires i < |n.jobs| && n.jobs[i].Finalised?
    ensures forall id :: id in Handle(n, i).orders ==>
              id in n.orders && (SafeOrder(n.orders[id]) ==> SafeOrder(Handle(n, i).orders[id]))
  {
    hide GetRole, Rest;
  }

  lemma ContinuePriced(n: Node, i: nat, now: int, valid: bool)
    requires Priced(n) && i < |n.jobs|
    ensures Priced(ContinueJob(n, i, now, valid))
  {
    hide Priced, OrderTaken, UnlockFor, Handle, Recreate, ReleaseSet;
    match n.jobs[i]
    case Taken(_, msg) => if msg.takingOrder.Some? { OrderTakenPriced(n, i, now); }
    case Refused(id) => UnlockPriced(n, i, id);
    case Finalised(_) => HandlePriced(n, i);
    case Releasing(_) => FewerJobsPriced(n, ContinueJob(n, i, now, valid));
    case Recreating(_, _) => RecreatePriced(n, i, valid);
  }

  lemma FewerJobsPriced(n: Node, m: Node)
    requires Priced(n) && m.account == n.account && m.orders == n.orders && m.trades == n.trades
    requires forall i :: 0 <= i < |m.jobs| ==> m.jobs[i] in n.jobs
    ensures Priced(m)
  {
    hide SafeOrder, TradePriced, JobPriced;
  }

  lemma UnlockPriced(n: Node, i: nat, id: UInt64)
    requires Priced(n) && i < |n.jobs|
    ensures Priced(UnlockFor(n, i, id, []))
  {
    hide TradePriced, JobPriced;
    PricedFrom(n, UnlockFor(n, i, id, []));
  }

  lemma RecreatePriced(n: Node, i: nat, valid: bool)
    requires Priced(n) && i < |n.jobs| && n.jobs[i].Recreating?
    ensures Priced(Recreate(n, i, valid))
  {
    hide TradePriced;
    assert JobPriced(n.account, n.jobs[i]);
    PricedFrom(n, Recreate(n, i, valid));
  }

  lemma StartTakingPriced(n: Node, msg: Message)
    requires Priced(n)
    ensures Priced(StartTaking(n, msg))
  {
    hide TradePriced;
    PricedFrom(n, StartTaking(n, msg));
  }

  lemma StepPriced(w: World, n: Node, e: Event)
    requires Priced(n) && IsCareful(n, e)
    ensures Priced(Step(w, n, e))
  {
    hide Priced, Take, Deliver, StartTaking, UpdateAndArchive, ContinueJob;
    if !n.crashed {
      match e
      case AddOrder(o) => PostPriced(n, o);
      case CancelOrders(ids) => DropPriced(n, ids);
      case TakeOrder(o, units, now, rpc) => TakePriced(w, n, o, units, now, rpc);
      case TakingMessage(msg) => StartTakingPriced(n, msg);
      case AnyMessage(msg, rpc) => DeliverPriced(w, n, msg, rpc);
      case UpdateTick(now, checks, limits) => UpdateTickPriced(n, now, checks, limits);
      case Continue(i, now, valid) => if i < |n.jobs| { ContinuePriced(n, i, now, valid); }
    }
  }

  lemma PostPriced(n: Node, o: Order)
    requires Priced(n) && SafeOrder(o)
    ensures Priced(Post(n, o))
  {
    hide TradePriced, JobPriced;
  }

  lemma DropPriced(n: Node, ids: set<UInt64>)
    requires Priced(n)
    ensures Priced(Drop(n, ids))
  {
    hide TradePriced, JobPriced, SafeOrder;
  }

  // ---------------------------------------------------------------------------
  // No CHECK fails.

  /** A search for a reply comes to the CHECKs: the seller at a PSBT, the buyer once the seller is checked. */
  predicate AtCheck(me: string, t: TradeState, rpc: Rpc) {
    && t.state == Initiated && t.sellerData.Some? && t.ourPsbt.None?
    && if GetOrderType(me, t) == Ask then t.theirPsbt.Some? && t.theirPsbt.value.Encoded?
       else rpc.buyerView.Some? && CheckForBuyerTrade(rpc.buyerView.value).Some?
  }

  /** A search for a reply ends the process exactly if it comes to the CHECKs with a price and units that fail them. */
  lemma ReplyDiesExactly(w: World, me: string, t: TradeState, locked: set<OutPoint>, rpc: Rpc)
    requires Consistent(w, me, t) && LawfulAnswers(w, me, t, locked, rpc)
    ensures HasReply(w, me, t, locked, rpc).outcome.Died? <==> AtCheck(me, t, rpc) && !TradeSurvives(me, t)
  {
    hide Consistent, LawfulAnswers, HasReply, GetTotalSat, CheckForBuyerTrade;
    DiesExactlyOnTotals(w, me, t, locked, rpc);
    TotalIsExact(GetParams(me, t).price, GetParams(me, t).units);
  }

  /** A job that CHECKs an order to be there and locked when it is not. */
  predicate JobFails(n: Node, j: Job) {
    match j
    case Refused(id) => !CanUnlock(n.orders, id)
    case Finalised(item) =>
      && item.trade.state != Success && GetRole(n.account, item.trade) == Maker
      && !CanUnlock(n.orders, item.trade.order.id.GetOr(0))
    case _ => false
  }

  /** Whether a CHECK fails in a step. */
  predicate FailsCheck(n: Node, e: Event) {
    match e
    case AnyMessage(msg, rpc) =>
      var i := FindMatch(n.trades, msg, 0);
      i < |n.trades| && var t := HandleMessage(n.account, n.trades[i].trade, msg);
                        AtCheck(n.account, t, rpc) && !TradeSurvives(n.account, t)
    case Continue(i, _, _) => i < |n.jobs| && JobFails(n, n.jobs[i])
    case _ => false
  }

  lemma DeliverCrashesExactly(w: World, n: Node, msg: Message, rpc: Rpc)
    requires Sound(w, n) && LawfulStep(w, n, AnyMessage(msg, rpc)) && !n.crashed
    ensures Deliver(w, n, msg, rpc).crashed <==> FailsCheck(n, AnyMessage(msg, rpc))
  {
    hide HandleMessage, HasReply, Lawful, LawfulView, AtCheck, TradeSurvives, ReplyLog, Consistent;
    var i := FindMatch(n.trades, msg, 0);
    if i < |n.trades| {
      var t := n.trades[i].trade;
      assert TradeSound(w, n.account, n.log, t);
      HandleKeepsConsistent(w, n.account, t, msg);
      HandleExtends(n.account, t, msg);
      ReplyDiesExactly(w, n.account, HandleMessage(n.account, t, msg), n.wallet, rpc);
      ConsistentIsUsable(w, n.account, HandleMessage(n.account, t, msg));
    }
  }

  lemma ConsistentIsUsable(w: World, me: string, t: TradeState)
    requires Consistent(w, me, t)
    ensures UsableSellerData(me, t)
  {
  }

  lemma TakeDoesNotCrash(w: World, n: Node, o: Order, units: Int64, now: int, rpc: Rpc)
    requires LawfulStep(w, n, TakeOrder(o, units, now, rpc)) && !n.crashed
    ensures !Take(w, n, o, units, now, rpc).crashed
  {
    hide HasReply, Lawful, LawfulView, ReplyLog, CheckOrder, TradeSurvives;
    ReplyDiesExactly(w, n.account, NewTrade(o, ToUInt64(units), o.account.GetOr(""), now), n.wallet, rpc);
  }

  lemma ContinueCrashesExactly(n: Node, i: nat, now: int, valid: bool)
    requires !n.crashed && i < |n.jobs|
    ensures ContinueJob(n, i, now, valid).crashed <==> JobFails(n, n.jobs[i])
  {
    hide CanUnlock, UnlockFor, Handle, CheckOrder, Rest, ReleaseSet, GetRole, Recreate;
    match n.jobs[i]
    case Refused(id) => UnlockCrashesExactly(n, i, id, []);
    case Finalised(_) => HandleCrashesExactly(n, i);
    case Recreating(_, _) => RecreateDoesNotCrash(n, i, valid);
    case _ =>
  }

  lemma HandleCrashesExactly(n: Node, i: nat)
    requires !n.crashed && i < |n.jobs| && n.jobs[i].Finalised?
    ensures Handle(n, i).crashed <==> JobFails(n, n.jobs[i])
  {
    hide CanUnlock, UnlockFor, Rest, GetRole;
    var t := n.jobs[i].item.trade;
    var n1 := n.(log := n.log + [Handled(n.jobs[i].item.serial, t)]);
    UnlockCrashesExactly(n1, i, t.order.id.GetOr(0), [Releasing(t)]);
  }

  lemma UnlockCrashesExactly(n: Node, i: nat, id: UInt64, next: seq<Job>)
    requires !n.crashed && i < |n.jobs|
    ensures UnlockFor(n, i, id, next).crashed <==> !CanUnlock(n.orders, id)
  {
  }

  lemma RecreateDoesNotCrash(n: Node, i: nat, valid: bool)
    requires !n.crashed && i < |n.jobs| && n.jobs[i].Recreating?
    ensures !Recreate(n, i, valid).crashed
  {
  }

  /** A step of a node with lawful answers ends the process exactly if it fails a CHECK. */
  lemma StepCrashesExactly(w: World, n: Node, e: Event)
    requires Sound(w, n) && LawfulStep(w, n, e) && !n.crashed
    ensures Step(w, n, e).crashed <==> FailsCheck(n, e)
  {
    hide Sound, ContinueJob, JobFails, Deliver, Take, LawfulStep, AtCheck, TradeSurvives, HandleMessage;
    match e
    case Continue(i, now, valid) => if i < |n.jobs| { ContinueCrashesExactly(n, i, now, valid); }
    case AnyMessage(msg, rpc) => DeliverCrashesExactly(w, n, msg, rpc);
    case TakeOrder(o, units, now, rpc) => TakeDoesNotCrash(w, n, o, units, now, rpc);
    case _ =>
  }

  /** No step of a node that is in order and has lost no order fails a CHECK. */
  lemma InOrderPasses(n: Node, e: Event)
    requires Exclusive(n) && Priced(n) && n.lost == {}
    ensures !FailsCheck(n, e)
  {
    hide Exclusive, TradeSurvives, HandleMessage, AtCheck, CanUnlock, SafeOrder;
    match e
    case AnyMessage(msg, rpc) =>
      var i := FindMatch(n.trades, msg, 0);
      if i < |n.trades| {
        assert TradePriced(n.account, n.trades[i].trade);
        HandleExtends(n.account, n.trades[i].trade, msg);
        SamePrice(n.account, n.trades[i].trade, HandleMessage(n.account, n.trades[i].trade, msg));
      }
    case Continue(i, _, _) =>
      if i < |n.jobs| {
        match n.jobs[i]
        case Refused(id) => UnlockFailsIfLost(n, i, id);
        case Finalised(item) =>
          if GetRole(n.account, item.trade) == Maker {
            UnlockFailsIfLost(n, i, item.trade.order.id.GetOr(0));
          }
        case _ =>
      }
    case _ =>
  }

  lemma CarefulStepLosesNothing(w: World, n: Node, e: Event)
    requires IsCareful(n, e) && n.lost == {}
    ensures Step(w, n, e).lost == {}
  {
    hide Reply, ReplyLog, CheckOrder, SafeOrder, Survives, Rest, HandleMessage, CanUnlock;
    match e
    case AnyMessage(msg, rpc) => DeliverEffect(w, n, msg, rpc);
    case TakeOrder(o, units, now, rpc) => TakeEffect(w, n, o, units, now, rpc);
    case _ =>
  }

  lemma NewIsPriced(account: string, wallet: set<OutPoint>)
    ensures Priced(NewNode(account, wallet))
  {
  }

  /**
   * No CHECK fails in a run with lawful answers in which all own orders are safe,
   * the user takes only what survives the CHECKs on their side, and no locked order
   * is cancelled or found to be invalid. Messages may be any.
   */
  lemma {:induction false} CarefulRunsDoNotCrash(w: World, account: string, wallet: set<OutPoint>, events: seq<Event>)
    requires LawfulRun(w, NewNode(account, wallet), events) && CarefulRun(w, NewNode(account, wallet), events)
    ensures var n := Run(w, NewNode(account, wallet), events);
            Exclusive(n) && Sound(w, n) && Priced(n) && !n.crashed && n.lost == {}
  {
    hide Exclusive, Sound, Priced, Step, LawfulStep;
    RunsAreSound(w, account, wallet, events);
    if events == [] {
      NewIsPriced(account, wallet);
      OrdersAreExclusive(w, account, wallet, events);
    } else {
      var (k, e) := (|events| - 1, events[|events| - 1]);
      var n := Run(w, NewNode(account, wallet), events[..k]);
      CarefulRunsDoNotCrash(w, account, wallet, events[..k]);
      StepKeepsExclusive(w, n, e);
      StepPriced(w, n, e);
      StepCrashesExactly(w, n, e);
      InOrderPasses(n, e);
      CarefulStepLosesNothing(w, n, e);
    }
  }
}
