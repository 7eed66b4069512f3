/**
 * Conservation of units: an order, the trades on it and the reduced orders that
 * take its place after successes never give away more than was offered.
 */
module NodeUnits {
  import opened Amounts
  import opened Chain
  import opened Nodes
  import opened NodeOrders
  import opened Orders
  import opened OwnOrders
  import opened Psbts
  import opened Sums
  import opened TradeRules
  import opened TradeRuns
  import opened Wrappers

  type Units = map<UInt64, UInt64>

  /** A copy of our order under its identifier has the units it was posted with. */
  predicate OrderUnits(limit: Units, id: UInt64, o: Order) {
    id in limit && o.maxUnits == limit[id] && o.minUnits <= o.maxUnits
  }

  predicate TradeUnits(limit: Units, me: string, t: TradeState) {
    GetRole(me, t) == Maker ==> OrderUnits(limit, t.order.id.GetOr(0), t.order) && t.units <= t.order.maxUnits
  }

  predicate JobUnits(limit: Units, sold: Units, me: string, j: Job) {
    match j
    case Taken(o, _) => OrderUnits(limit, o.id.GetOr(0), o)
    case Finalised(item) => TradeUnits(limit, me, item.trade)
    case Recreating(o, from) =>
      from in limit && from in sold && sold[from] <= limit[from]
      && o.maxUnits == limit[from] - sold[from] && o.minUnits <= o.maxUnits
    case _ => true
  }

  ghost predicate ItemUnits(n: Node) {
    && (forall id :: id in n.orders ==> OrderUnits(n.limit, id, n.orders[id]))
    && (forall i :: 0 <= i < |n.trades| ==> TradeUnits(n.limit, n.account, n.trades[i].trade))
    && (forall i :: 0 <= i < |n.jobs| ==> JobUnits(n.limit, n.sold, n.account, n.jobs[i]))
  }

  /**
   * What is known of one identifier: a sold order is gone for good, and the
   * order that takes its place, if any, offers what was not sold of it.
   */
  predicate IdUnits(n: Node, id: UInt64, held: nat, replaced: nat) {
    && (id in n.limit ==> id < n.nextId)
    && (id in n.sold ==> id in n.limit && n.sold[id] <= n.limit[id] && id !in n.orders && held == 0)
    && (id in n.rest ==>
          && replaced == 0 && id in n.sold && id in n.limit && id < n.rest[id] && n.rest[id] in n.limit
          && n.limit[n.rest[id]] == n.limit[id] - n.sold[id])
  }

  ghost predicate Sales(n: Node) {
    forall id: UInt64 :: IdUnits(n, id, Held(n, id), Replaced(n, id))
  }

  ghost predicate Conserving(n: Node) {
    ItemUnits(n) && Sales(n)
  }

  /** What the user may do: add unlocked orders with a minimum not above the maximum, as validation demands. */
  ghost predicate ValidAdds(e: Event) {
    UnlockedAdds(e) && (e.AddOrder? ==> e.order.minUnits <= e.order.maxUnits)
  }

  // ---------------------------------------------------------------------------

  /** A step that posts and sells nothing. */
  predicate SameLedger(n: Node, m: Node) {
    && m.account == n.account && m.nextId == n.nextId && m.limit == n.limit && m.sold == n.sold && m.rest == n.rest
    && m.orders.Keys <= n.orders.Keys
  }

  lemma NothingSoldKeeps(n: Node, m: Node)
    requires Conserving(n) && SameLedger(n, m) && ItemUnits(m)
    requires forall id: UInt64 :: (Held(m, id) <= Held(n, id) || id in n.orders) && Replaced(m, id) <= Replaced(n, id)
    ensures Conserving(m)
  {
    hide Held, Replaced, ItemUnits;
    forall id: UInt64 ensures IdUnits(m, id, Held(m, id), Replaced(m, id)) {
      assert IdUnits(n, id, Held(n, id), Replaced(n, id));
    }
  }

  lemma JobUnitsReplaced(n: Node, i: nat, next: seq<Job>, m: Node)
    requires ItemUnits(n) && i < |n.jobs| && m.account == n.account && m.limit == n.limit && m.sold == n.sold
    requires m.jobs == n.jobs[..i] + next + n.jobs[i + 1..]
    requires forall j :: 0 <= j < |next| ==> JobUnits(n.limit, n.sold, n.account, next[j])
    ensures forall j :: 0 <= j < |m.jobs| ==> JobUnits(m.limit, m.sold, m.account, m.jobs[j])
  {
    hide JobUnits;
  }

  lemma TakeConserves(w: World, n: Node, o: Order, units: Int64, now: int, rpc: Rpc)
    requires Conserving(n)
    ensures Conserving(Take(w, n, o, units, now, rpc))
  {
    hide Take, Reply, Sum;
    TakeHistory(w, n, o, units, now, rpc);
    TakeEffect(w, n, o, units, now, rpc);
    var m := Take(w, n, o, units, now, rpc);
    if m.trades != n.trades {
      var x := m.trades[|n.trades|];
      forall id: UInt64 ensures Held(m, id) == Held(n, id) && Replaced(m, id) == Replaced(n, id) {
        TradeAppended(n, x, m, id);
      }
    }
    NothingSoldKeeps(n, m);
  }

  lemma TakeHistory(w: World, n: Node, o: Order, units: Int64, now: int, rpc: Rpc)
    ensures var m := Take(w, n, o, units, now, rpc);
            m.limit == n.limit && m.sold == n.sold && m.rest == n.rest
  {
    hide Reply, ReplyLog, CheckOrder;
  }

  lemma DeliverHistory(w: World, n: Node, msg: Message, rpc: Rpc)
    ensures var m := Deliver(w, n, msg, rpc);
            m.limit == n.limit && m.sold == n.sold && m.rest == n.rest
  {
    hide Reply, ReplyLog, HandleMessage;
  }

  lemma DeliverConserves(w: World, n: Node, msg: Message, rpc: Rpc)
    requires Conserving(n)
    ensures Conserving(Deliver(w, n, msg, rpc))
  {
    hide Deliver, Reply, HandleMessage, Sum;
    DeliverHistory(w, n, msg, rpc);
    DeliverEffect(w, n, msg, rpc);
    var m := Deliver(w, n, msg, rpc);
    var i := FindMatch(n.trades, msg, 0);
    if i < |n.trades| {
      forall id: UInt64 ensures Held(m, id) == Held(n, id) && Replaced(m, id) == Replaced(n, id) {
        TradeChanged(n, i, m.trades[i], m, id);
      }
    }
    NothingSoldKeeps(n, m);
  }

  lemma UpdateTickConserves(n: Node, now: int, checks: nat -> ChainCheck, limits: Limits)
    requires Conserving(n)
    ensures Conserving(UpdateAndArchive(n, now, checks, limits))
  {
    hide Sum, Select, HandleAll, Updated, Held, Replaced;
    var m := UpdateAndArchive(n, now, checks, limits);
    var updated := UpdateEach(n.trades, now, checks, limits);
    forall i | 0 <= i < |updated|
      ensures updated[i].trade.order == n.trades[i].trade.order && updated[i].trade.units == n.trades[i].trade.units
    {
      UpdatedKeepsOrder(n.trades[i].trade, now, checks(i), limits);
    }
    forall id: UInt64 ensures Held(m, id) == Held(n, id) && Replaced(m, id) == Replaced(n, id) {
      ArchivedHolds(n, updated, m, id);
    }
    ArchivedUnits(n, updated, m);
    NothingSoldKeeps(n, m);
  }

  lemma ArchivedUnits(n: Node, updated: seq<Numbered>, m: Node)
    requires ItemUnits(n) && |updated| == |n.trades| && m.account == n.account
    requires m.orders == n.orders && m.limit == n.limit && m.sold == n.sold
    requires forall i :: 0 <= i < |updated| ==>
               updated[i].trade.order == n.trades[i].trade.order && updated[i].trade.units == n.trades[i].trade.units
    requires m.trades == Select(updated, false) && m.jobs == n.jobs + HandleAll(Select(updated, true))
    ensures ItemUnits(m)
  {
    hide Select, HandleAll;
    var final := Select(updated, true);
    SelectFrom(updated, true);
    SelectFrom(updated, false);
    HandleAllIs(final);
    assert forall x :: x in updated ==> TradeUnits(n.limit, n.account, x.trade) by {
      forall i | 0 <= i < |updated| ensures TradeUnits(n.limit, n.account, updated[i].trade) {
        assert TradeUnits(n.limit, n.account, n.trades[i].trade);
      }
    }
    forall i | 0 <= i < |m.trades| ensures TradeUnits(m.limit, m.account, m.trades[i].trade) {
      assert m.trades[i] in updated;
    }
    forall i | 0 <= i < |m.jobs| ensures JobUnits(m.limit, m.sold, m.account, m.jobs[i]) {
      if i >= |n.jobs| {
        assert final[i - |n.jobs|] in updated && m.jobs[i] == Finalised(final[i - |n.jobs|]);
      }
    }
  }

  lemma PostConserves(n: Node, o: Order)
    requires Conserving(n) && Exclusive(n) && o.minUnits <= o.maxUnits
    ensures Conserving(Post(n, o))
    ensures n.nextId < TWO_64 ==> n.nextId !in n.limit
  {
    var m := Post(n, o);
    if n.nextId < TWO_64 {
      hide Sum;
      assert forall id: UInt64 :: Held(m, id) == Held(n, id) && Replaced(m, id) == Replaced(n, id);
      hide Held, Replaced;
      assert IdUnits(n, n.nextId, Held(n, n.nextId), Replaced(n, n.nextId));
      forall id: UInt64 ensures IdUnits(m, id, Held(m, id), Replaced(m, id)) {
        assert IdUnits(n, id, Held(n, id), Replaced(n, id)) && IdInOrder(n, id, Held(n, id), Replaced(n, id));
      }
      PostItems(n, o);
    }
  }

  lemma PostItems(n: Node, o: Order)
    requires ItemUnits(n) && o.minUnits <= o.maxUnits && n.nextId < TWO_64 && n.nextId !in n.limit
    ensures ItemUnits(Post(n, o))
  {
  }

  lemma DropConserves(n: Node, ids: set<UInt64>)
    requires Conserving(n)
    ensures Conserving(Drop(n, ids))
  {
    hide Sum;
    var m := Drop(n, ids);
    assert forall id: UInt64 :: Held(m, id) == Held(n, id) && Replaced(m, id) == Replaced(n, id);
    NothingSoldKeeps(n, m);
  }

  lemma StartTakingConserves(n: Node, msg: Message)
    requires Conserving(n)
    ensures Conserving(StartTaking(n, msg))
  {
    var m := StartTaking(n, msg);
    if m != n {
      var id := msg.takingOrder.value.id;
      var j := Taken(Copy(n.account, id, n.orders[id]), msg);
      hide Sum;
      forall x: UInt64
        ensures Held(m, x) == Held(n, x) + (if x == id then 1 else 0) && Replaced(m, x) == Replaced(n, x)
      {
        SumAppend(JobHolds(n.account, x), n.jobs, j);
        SumAppend(JobReplaces(x), n.jobs, j);
      }
      hide Held, Replaced;
      assert OrderUnits(n.limit, id, n.orders[id]);
      NothingSoldKeeps(n, m);
    }
  }

  /** The units of a new trade are within the order, in spite of the casts. */
  lemma AcceptedUnits(o: Order, units: UInt64)
    requires CheckOrder(o, ToInt64(units)) && o.minUnits <= o.maxUnits
    ensures ToUInt64(ToInt64(units)) <= o.maxUnits
  {
    RemainingNeverWraps(o.minUnits, o.maxUnits);
  }

  lemma OrderTakenConserves(n: Node, i: nat, now: int)
    requires Conserving(n) && i < |n.jobs| && n.jobs[i].Taken? && n.jobs[i].msg.takingOrder.Some?
    ensures Conserving(OrderTaken(n, i, now))
  {
    var m := OrderTaken(n, i, now);
    var Taken(o, msg) := n.jobs[i];
    assert JobUnits(n.limit, n.sold, n.account, n.jobs[i]);
    JobLists(n, i, Refused(o.id.GetOr(0)));
    if m.trades == n.trades {
      hide OrderTaken, Conserving;
      FewerJobsConserve(n, i, [Refused(o.id.GetOr(0))], m);
    } else {
      AcceptedUnits(o, msg.takingOrder.value.units);
      var t := m.trades[|n.trades|];
      assert m.trades == n.trades + [t] && t.trade.order == o && TradeUnits(n.limit, n.account, t.trade);
      hide OrderTaken, Conserving;
      TradeForJobConserves(n, i, t, m);
    }
  }

  lemma TradeForJobConserves(n: Node, i: nat, t: Numbered, m: Node)
    requires Conserving(n) && i < |n.jobs| && n.jobs[i].Taken? && SameLedger(n, m) && m.orders == n.orders
    requires m.trades == n.trades + [t] && m.jobs == Without(n.jobs, i) && TradeUnits(n.limit, n.account, t.trade)
    requires t.trade.order == n.jobs[i].order
    ensures Conserving(m)
  {
    hide Held, Replaced, JobUnits;
    var p := m.(trades := n.trades);
    JobLists(n, i, n.jobs[i]);
    JobUnitsReplaced(n, i, [], p);
    forall x: UInt64 ensures Held(m, x) <= Held(n, x) && Replaced(m, x) == Replaced(n, x) {
      JobsReplaced(n, i, [], p, x);
      TradeAppended(p, t, m, x);
    }
    NothingSoldKeeps(n, m);
  }

  lemma UnlockConserves(n: Node, i: nat, id: UInt64, next: seq<Job>)
    requires Conserving(n) && i < |n.jobs| && |next| <= 1 && (next != [] ==> next[0].Releasing?)
    ensures Conserving(UnlockFor(n, i, id, next))
  {
    hide Held, Replaced;
    var m := UnlockFor(n, i, id, next);
    if CanUnlock(n.orders, id) {
      JobUnitsReplaced(n, i, next, m);
      forall x: UInt64 ensures Held(m, x) <= Held(n, x) && Replaced(m, x) <= Replaced(n, x) {
        JobsReplaced(n, i, next, m, x);
      }
      NothingSoldKeeps(n, m);
    } else {
      SameItemsConserve(n, m);
    }
  }

  /** A job gives way to one that holds no more and sells nothing, or to none. */
  lemma FewerJobsConserve(n: Node, i: nat, next: seq<Job>, m: Node)
    requires Conserving(n) && i < |n.jobs| && |next| <= 1 && (next != [] ==> next[0].Releasing? || next[0].Refused?)
    requires next != [] ==> forall x: UInt64 :: JobHeld(n.account, x, next[0]) <= JobHeld(n.account, x, n.jobs[i])
    requires SameLedger(n, m) && m.orders == n.orders && m.trades == n.trades
    requires m.jobs == n.jobs[..i] + next + n.jobs[i + 1..]
    ensures Conserving(m)
  {
    hide Held, Replaced;
    JobUnitsReplaced(n, i, next, m);
    forall x: UInt64 ensures Held(m, x) <= Held(n, x) && Replaced(m, x) <= Replaced(n, x) {
      JobsReplaced(n, i, next, m, x);
    }
    NothingSoldKeeps(n, m);
  }

  lemma HandleConserves(n: Node, i: nat)
    requires Conserving(n) && Exclusive(n) && i < |n.jobs| && n.jobs[i].Finalised?
    ensures Conserving(Handle(n, i))
  {
    hide Conserving, Exclusive, CanUnlock, UnlockFor, Rest, GetRole;
    var Numbered(serial, t) := n.jobs[i].item;
    var id := t.order.id.GetOr(0);
    if GetRole(n.account, t) == Taker {
      JobLists(n, i, Releasing(t));
      FewerJobsConserve(n, i, if t.state == Success then [] else [Releasing(t)], Handle(n, i));
    } else if t.state == Success {
      SaleConserves(n, i);
    } else if CanUnlock(n.orders, id) {
      var n1 := n.(log := n.log + [Handled(serial, t)]);
      SameItemsConserve(n, n1);
      UnlockConserves(n1, i, id, [Releasing(t)]);
    } else {
      SameItemsConserve(n, n.(crashed := true));
    }
  }

  lemma SameItemsConserve(n: Node, m: Node)
    requires Conserving(n) && SameLedger(n, m) && m.orders == n.orders && m.trades == n.trades && m.jobs == n.jobs
    ensures Conserving(m)
  {
    hide Sum;
    assert forall x: UInt64 :: Held(m, x) == Held(n, x) && Replaced(m, x) == Replaced(n, x);
    NothingSoldKeeps(n, m);
  }

  /** What is left of an order is what was offered less what was sold. */
  lemma RestIsExact(t: TradeState)
    requires t.units <= t.order.maxUnits
    ensures Remaining(t.order.maxUnits, t.units) == t.order.maxUnits - t.units
    ensures Rest(t).Some? <==> t.units < t.order.maxUnits && t.order.minUnits <= t.order.maxUnits - t.units
    ensures Rest(t).Some? ==> Rest(t).value.maxUnits == t.order.maxUnits - t.units
                              && Rest(t).value.minUnits <= Rest(t).value.maxUnits
  {
  }

  lemma SaleConserves(n: Node, i: nat)
    requires Conserving(n) && Exclusive(n) && i < |n.jobs| && n.jobs[i].Finalised?
    requires n.jobs[i].item.trade.state == Success && GetRole(n.account, n.jobs[i].item.trade) == Maker
    ensures Conserving(Handle(n, i))
  {
    var t := n.jobs[i].item.trade;
    var id := t.order.id.GetOr(0);
    var m := Handle(n, i);
    assert TradeUnits(n.limit, n.account, t) by { assert JobUnits(n.limit, n.sold, n.account, n.jobs[i]); }
    RestIsExact(t);
    var next := if Rest(t).Some? then [Recreating(Rest(t).value, id)] else [];
    JobLists(n, i, if Rest(t).Some? then next[0] else Refused(id));
    assert m.jobs == n.jobs[..i] + next + n.jobs[i + 1..] && m.trades == n.trades && m.orders == n.orders - {id};
    assert m.account == n.account && m.nextId == n.nextId && m.sold == n.sold[id := t.units] && m.limit == n.limit
           && m.rest == n.rest;
    assert forall j :: 0 <= j < |next| ==> JobUnits(m.limit, m.sold, m.account, next[j]);
    hide Handle, Rest, Exclusive, JobUnits;
    SaleCounts(n, i, id, next, m);
    SoldItems(n, i, id, next, m);
  }

  /** The sold order is not held any more, and nothing else changes. */
  lemma SaleCounts(n: Node, i: nat, id: UInt64, next: seq<Job>, m: Node)
    requires Sales(n) && Exclusive(n) && i < |n.jobs| && n.jobs[i].Finalised? && |next| <= 1
    requires GetRole(n.account, n.jobs[i].item.trade) == Maker && id == n.jobs[i].item.trade.order.id.GetOr(0)
    requires m.account == n.account && m.trades == n.trades && m.jobs == n.jobs[..i] + next + n.jobs[i + 1..]
    requires next != [] ==> next[0].Recreating? && next[0].from == id
    requires id in n.limit && id in m.sold && m.sold[id] <= n.limit[id] && m.orders == n.orders - {id}
    requires m.sold == n.sold[id := m.sold[id]] && m.limit == n.limit && m.rest == n.rest && m.nextId == n.nextId
    ensures id !in n.sold && Sales(m)
  {
    hide Held, Replaced;
    forall x: UInt64
      ensures IdUnits(m, x, Held(m, x), Replaced(m, x)) && (x == id ==> x !in n.sold)
    {
      JobsReplaced(n, i, next, m, x);
      assert IdUnits(n, x, Held(n, x), Replaced(n, x)) && IdInOrder(n, x, Held(n, x), Replaced(n, x));
    }
  }

  lemma SoldItems(n: Node, i: nat, id: UInt64, next: seq<Job>, m: Node)
    requires ItemUnits(n) && i < |n.jobs| && id !in n.sold && m.account == n.account && m.limit == n.limit
    requires m.trades == n.trades && m.jobs == n.jobs[..i] + next + n.jobs[i + 1..] && m.orders == n.orders - {id}
    requires id in m.sold && m.sold == n.sold[id := m.sold[id]]
    requires forall j :: 0 <= j < |next| ==> JobUnits(m.limit, m.sold, m.account, next[j])
    ensures ItemUnits(m)
  {
    forall j | 0 <= j < |m.jobs| ensures JobUnits(m.limit, m.sold, m.account, m.jobs[j]) {
      if j < i {
        assert JobUnits(n.limit, n.sold, n.account, n.jobs[j]);
      } else if j >= i + |next| {
        assert JobUnits(n.limit, n.sold, n.account, n.jobs[j - |next| + 1]);
      }
    }
  }

  lemma RecreateConserves(n: Node, i: nat, valid: bool)
    requires Conserving(n) && Exclusive(n) && i < |n.jobs| && n.jobs[i].Recreating?
    ensures Conserving(Recreate(n, i, valid))
  {
    hide Exclusive;
    var Recreating(o, from) := n.jobs[i];
    var n1 := n.(jobs := Without(n.jobs, i));
    assert JobUnits(n.limit, n.sold, n.account, n.jobs[i]);
    JobLists(n, i, n.jobs[i]);
    FewerJobsConserve(n, i, [], n1);
    ExclusiveWithout(n, i);
    PostConserves(n1, o);
    if valid && n.nextId < TWO_64 {
      NotReplaced(n, i);
      RestAdded(n1, Post(n1, o), Recreate(n, i, valid), from);
    }
  }

  /** An order whose rest is about to be added has none yet. */
  lemma NotReplaced(n: Node, i: nat)
    requires Conserving(n) && Exclusive(n) && i < |n.jobs| && n.jobs[i].Recreating?
    ensures n.jobs[i].from !in n.rest && Replaced(n.(jobs := Without(n.jobs, i)), n.jobs[i].from) == 0
    ensures n.jobs[i].from < n.nextId
  {
    hide Held, Replaced, ItemUnits, Shapes;
    var from := n.jobs[i].from;
    JobLists(n, i, n.jobs[i]);
    JobsReplaced(n, i, [], n.(jobs := Without(n.jobs, i)), from);
    assert IdUnits(n, from, Held(n, from), Replaced(n, from)) && IdInOrder(n, from, Held(n, from), Replaced(n, from));
  }

  lemma RestAdded(n: Node, p: Node, m: Node, from: UInt64)
    requires Conserving(p) && n.nextId < TWO_64 && m == p.(rest := n.rest[from := n.nextId]) && p.rest == n.rest
    requires from in n.sold && from in n.limit && n.sold[from] <= n.limit[from] && from < n.nextId && p.sold == n.sold
    requires n.nextId in p.limit && p.limit == n.limit[n.nextId := p.limit[n.nextId]] && n.nextId !in n.limit
    requires p.limit[n.nextId] == n.limit[from] - n.sold[from] && Replaced(p, from) == 0
    ensures Conserving(m)
  {
    hide Sum;
    assert forall x: UInt64 :: Held(m, x) == Held(p, x) && Replaced(m, x) == Replaced(p, x);
    hide Held, Replaced;
    forall x: UInt64 ensures IdUnits(m, x, Held(m, x), Replaced(m, x)) {
      assert IdUnits(p, x, Held(p, x), Replaced(p, x));
    }
  }

  lemma ContinueConserves(n: Node, i: nat, now: int, valid: bool)
    requires Conserving(n) && Exclusive(n) && i < |n.jobs|
    ensures Conserving(ContinueJob(n, i, now, valid))
  {
    hide Conserving, Exclusive;
    match n.jobs[i]
    case Taken(_, msg) => if msg.takingOrder.Some? { OrderTakenConserves(n, i, now); }
    case Refused(id) => UnlockConserves(n, i, id, []);
    case Finalised(_) => HandleConserves(n, i);
    case Releasing(_) =>
      JobLists(n, i, n.jobs[i]);
      FewerJobsConserve(n, i, [], ContinueJob(n, i, now, valid));
    case Recreating(_, _) => RecreateConserves(n, i, valid);
  }

  lemma StepConserves(w: World, n: Node, e: Event)
    requires Conserving(n) && Exclusive(n) && ValidAdds(e)
    ensures Conserving(Step(w, n, e)) && Exclusive(Step(w, n, e))
  {
    hide Conserving, Exclusive;
    StepKeepsExclusive(w, n, e);
    if !n.crashed {
      match e
      case AddOrder(o) => PostConserves(n, o);
      case CancelOrders(ids) => DropConserves(n, ids);
      case TakeOrder(o, units, now, rpc) => TakeConserves(w, n, o, units, now, rpc);
      case TakingMessage(msg) => StartTakingConserves(n, msg);
      case AnyMessage(msg, rpc) => DeliverConserves(w, n, msg, rpc);
      case UpdateTick(now, checks, limits) => UpdateTickConserves(n, now, checks, limits);
      case Continue(i, now, valid) => if i < |n.jobs| { ContinueConserves(n, i, now, valid); }
    }
  }

  lemma {:induction false} RunsConserve(w: World, account: string, wallet: set<OutPoint>, events: seq<Event>)
    requires forall e :: e in events ==> ValidAdds(e)
    ensures Conserving(Run(w, NewNode(account, wallet), events)) && Exclusive(Run(w, NewNode(account, wallet), events))
  {
    if events != [] {
      var k := |events| - 1;
      RunsConserve(w, account, wallet, events[..k]);
      hide Exclusive, Conserving, Step;
      StepConserves(w, Run(w, NewNode(account, wallet), events[..k]), events[k]);
    }
  }

  /** What was posted, sold and put in place of sold orders is never taken back or changed. */
  lemma LedgerGrows(w: World, n: Node, e: Event, id: UInt64)
    requires Conserving(n) && Exclusive(n)
    ensures var m := Step(w, n, e);
            && (id in n.limit ==> id in m.limit && m.limit[id] == n.limit[id])
            && (id in n.sold ==> id in m.sold && m.sold[id] == n.sold[id])
            && (id in n.rest ==> id in m.rest && m.rest[id] == n.rest[id])
  {
    if !n.crashed {
      hide Conserving, Exclusive;
      match e
      case AddOrder(o) => PostLedger(n, o, id);
      case CancelOrders(ids) =>
      case TakeOrder(o, units, now, rpc) => TakeHistory(w, n, o, units, now, rpc);
      case TakingMessage(msg) =>
      case AnyMessage(msg, rpc) => DeliverHistory(w, n, msg, rpc);
      case UpdateTick(now, checks, limits) =>
      case Continue(i, now, valid) => if i < |n.jobs| { ContinueLedger(n, i, now, valid, id); }
    }
  }

  lemma PostLedger(n: Node, o: Order, id: UInt64)
    requires Conserving(n)
    ensures id in n.limit ==> id in Post(n, o).limit && Post(n, o).limit[id] == n.limit[id]
    ensures Post(n, o).sold == n.sold && Post(n, o).rest == n.rest
  {
    hide Held, Replaced, ItemUnits;
    assert IdUnits(n, id, Held(n, id), Replaced(n, id));
  }

  lemma ContinueLedger(n: Node, i: nat, now: int, valid: bool, id: UInt64)
    requires Conserving(n) && Exclusive(n) && i < |n.jobs|
    ensures var m := ContinueJob(n, i, now, valid);
            && (id in n.limit ==> id in m.limit && m.limit[id] == n.limit[id])
            && (id in n.sold ==> id in m.sold && m.sold[id] == n.sold[id])
            && (id in n.rest ==> id in m.rest && m.rest[id] == n.rest[id])
  {
    hide Conserving, Exclusive, Handle, Recreate, CheckOrder, CanUnlock, Unlocked, ReleaseSet;
    match n.jobs[i]
    case Taken(_, _) =>
    case Refused(_) =>
    case Releasing(_) =>
    case Finalised(item) => HandleLedger(n, i, id);
    case Recreating(o, from) => RecreateLedger(n, i, valid, id);
  }

  lemma HandleLedger(n: Node, i: nat, id: UInt64)
    requires Conserving(n) && i < |n.jobs| && n.jobs[i].Finalised?
    ensures var m := Handle(n, i);
            m.limit == n.limit && m.rest == n.rest && (id in n.sold ==> id in m.sold && m.sold[id] == n.sold[id])
  {
    hide Conserving, Rest, GetRole;
    if GetRole(n.account, n.jobs[i].item.trade) == Maker {
      NotSold(n, i);
    }
  }

  lemma RecreateLedger(n: Node, i: nat, valid: bool, id: UInt64)
    requires Conserving(n) && Exclusive(n) && i < |n.jobs| && n.jobs[i].Recreating?
    ensures var m := Recreate(n, i, valid);
            && m.sold == n.sold
            && (id in n.limit ==> id in m.limit && m.limit[id] == n.limit[id])
            && (id in n.rest ==> id in m.rest && m.rest[id] == n.rest[id])
  {
    hide Conserving, Exclusive;
    var n1 := n.(jobs := Without(n.jobs, i));
    NotReplaced(n, i);
    JobLists(n, i, n.jobs[i]);
    FewerJobsConserve(n, i, [], n1);
    PostLedger(n1, n.jobs[i].order, id);
  }

  /** A trade that awaits its handler is not on an order that is already sold. */
  lemma NotSold(n: Node, i: nat)
    requires Conserving(n) && i < |n.jobs| && n.jobs[i].Finalised? && GetRole(n.account, n.jobs[i].item.trade) == Maker
    ensures n.jobs[i].item.trade.order.id.GetOr(0) !in n.sold
  {
    hide Held, Replaced, ItemUnits;
    var id := n.jobs[i].item.trade.order.id.GetOr(0);
    JobLists(n, i, n.jobs[i]);
    JobsReplaced(n, i, [], n.(jobs := Without(n.jobs, i)), id);
    assert IdUnits(n, id, Held(n, id), Replaced(n, id));
  }

  // ---------------------------------------------------------------------------

  predicate Succeeds(n: Node, id: UInt64, next: UInt64) {
    id in n.rest && n.rest[id] == next
  }

  /** An order and the orders that successively took its place. */
  ghost predicate Lineage(n: Node, ids: seq<UInt64>) {
    && ids != []
    && forall i, j :: 0 <= i && j == i + 1 < |ids| ==> Succeeds(n, ids[i], ids[j])
  }

  function SoldAlong(sold: Units, ids: seq<UInt64>): nat {
    if ids == [] then 0
    else SoldAlong(sold, ids[..|ids| - 1]) + if ids[|ids| - 1] in sold then sold[ids[|ids| - 1]] else 0
  }

  /** Along a lineage, what was sold and what the latest order offers add up to the first offer. */
  lemma {:induction false} LineageBalance(n: Node, ids: seq<UInt64>)
    requires Conserving(n) && Lineage(n, ids) && ids[0] in n.limit
    ensures var last := ids[|ids| - 1];
            last in n.limit && SoldAlong(n.sold, ids[..|ids| - 1]) + n.limit[last] == n.limit[ids[0]]
  {
    var k := |ids| - 1;
    if k > 0 {
      var before := ids[..k];
      LineageBalance(n, before);
      var last := before[k - 1];
      assert IdUnits(n, last, Held(n, last), Replaced(n, last));
      assert Succeeds(n, ids[k - 1], ids[k]);
      assert before[..k - 1] == ids[..k - 1];
    }
  }

  /**
   * Units conservation: the units of all successful trades on an order and its
   * successors never exceed what was first offered, not even together with the
   * units of a trade that is still active or awaits its handler, which is never
   * on an order already counted.
   */
  lemma UnitsAreConserved(n: Node, ids: seq<UInt64>, t: TradeState)
    requires Conserving(n) && Lineage(n, ids) && ids[0] in n.limit
    requires GetRole(n.account, t) == Maker && t.order.id.GetOr(0) == ids[|ids| - 1]
    requires (exists i :: 0 <= i < |n.trades| && n.trades[i].trade == t)
             || (exists i :: 0 <= i < |n.jobs| && n.jobs[i].Finalised? && n.jobs[i].item.trade == t)
    ensures SoldAlong(n.sold, ids) + t.units <= n.limit[ids[0]]
    ensures ids[|ids| - 1] !in n.sold
  {
    hide Sum;
    LineageBalance(n, ids);
    var last := ids[|ids| - 1];
    assert IdUnits(n, last, Held(n, last), Replaced(n, last));
    if i :| 0 <= i < |n.trades| && n.trades[i].trade == t {
      SumIncludes(TradeHolds(n.account, last), n.trades, i);
    } else {
      var i :| 0 <= i < |n.jobs| && n.jobs[i].Finalised? && n.jobs[i].item.trade == t;
      SumIncludes(JobHolds(n.account, last), n.jobs, i);
      assert JobUnits(n.limit, n.sold, n.account, n.jobs[i]);
    }
    assert Held(n, last) > 0;
  }

  /** With no trade under way, too. */
  lemma SalesAreConserved(n: Node, ids: seq<UInt64>)
    requires Conserving(n) && Lineage(n, ids) && ids[0] in n.limit
    ensures SoldAlong(n.sold, ids) <= n.limit[ids[0]]
  {
    LineageBalance(n, ids);
    var last := ids[|ids| - 1];
    assert IdUnits(n, last, Held(n, last), Replaced(n, last));
  }
}
