/**
 * The terms on which orders are offered: whatever a node offers, trades on or
 * offers again after a sale has the asset, side, price and minimum its user has set.
 */
module NodeTerms {
  import opened Amounts
  import opened Chain
  import opened Networks
  import opened NodeArchive
  import opened NodeOrders
  import opened NodeUnits
  import opened Nodes
  import opened Orders
  import opened OwnOrders
  import opened Psbts
  import opened TradeRules
  import opened TradeRuns
  import opened Wrappers

  /** What an order offers, apart from how many units. */
  datatype Offer = Offer(
    asset: Option<string>,
    orderType: Option<OrderType>,
    priceSat: Option<UInt64>,
    minUnits: UInt64)

  function OfferOf(o: Order): Offer {
    Offer(o.asset, o.orderType, o.priceSat, o.minUnits)
  }

  /** The reduced order differs from the sold one in its identifier and maximum only. */
  lemma RestKeepsTerms(t: TradeState)
    requires Rest(t).Some?
    ensures var (o, rest) := (t.order, Rest(t).value);
            && rest.asset == o.asset && rest.orderType == o.orderType && rest.priceSat == o.priceSat
            && rest.minUnits == o.minUnits && rest.locked == o.locked && rest.account == o.account
            && rest.id == None && 0 < rest.maxUnits && rest.minUnits <= rest.maxUnits
  {
  }

  /**
   * After a sale the order is gone, and what is left of it, if somebody may take
   * that much, is offered under the next identifier on the same terms.
   */
  lemma SaleReoffers(n: Node, i: nat, now: int)
    requires i < |n.jobs| && n.jobs[i].Finalised? && !n.crashed && n.nextId < TWO_64
    requires var t := n.jobs[i].item.trade;
             t.state == Success && GetRole(n.account, t) == Maker && t.units <= t.order.maxUnits
    ensures var t := n.jobs[i].item.trade;
            var (id, left, m) := (t.order.id.GetOr(0), t.order.maxUnits - t.units, ContinueJob(n, i, now, true));
            && m.orders == n.orders - {id}
            && if left > 0 && left >= t.order.minUnits then
                 && i < |m.jobs| && m.jobs[i].Recreating?
                 && var k := ContinueJob(m, i, now, true);
                 && k.orders.Keys == m.orders.Keys + {n.nextId} && n.nextId in k.orders
                 && (forall x :: x in m.orders && x != n.nextId ==> k.orders[x] == m.orders[x])
                 && var o := k.orders[n.nextId];
                 && o.asset == t.order.asset && o.orderType == t.order.orderType && o.priceSat == t.order.priceSat
                 && o.minUnits == t.order.minUnits && o.maxUnits == left && o.locked == t.order.locked
                 && id in k.rest && k.rest[id] == n.nextId
               else m.jobs == Without(n.jobs, i)
  {
    hide GetRole;
    RestIsExact(n.jobs[i].item.trade);
  }

  // ---------------------------------------------------------------------------
  // Over whole runs.

  /** An order is on the terms under which an identifier was posted. */
  ghost predicate PostedAs(log: seq<Entry>, id: UInt64, o: Order) {
    exists p :: Posted(id, p) in log && OfferOf(p) == OfferOf(o)
  }

  ghost predicate TradeTermed(log: seq<Entry>, me: string, t: TradeState) {
    GetRole(me, t) == Maker ==> PostedAs(log, t.order.id.GetOr(0), t.order)
  }

  ghost predicate JobTermed(log: seq<Entry>, me: string, j: Job) {
    match j
    case Taken(o, _) => PostedAs(log, o.id.GetOr(0), o)
    case Finalised(item) => TradeTermed(log, me, item.trade)
    case Recreating(o, from) => PostedAs(log, from, o)
    case _ => true
  }

  /** Two identifiers were posted on the same terms. */
  ghost predicate PostedAlike(log: seq<Entry>, id: UInt64, next: UInt64) {
    exists p, q :: Posted(id, p) in log && Posted(next, q) in log && OfferOf(p) == OfferOf(q)
  }

  /** Own orders, trades on them, and what replaces them are on the terms that were posted. */
  ghost predicate Termed(n: Node) {
    && (forall id :: id in n.orders ==> PostedAs(n.log, id, n.orders[id]))
    && (forall i :: 0 <= i < |n.trades| ==> TradeTermed(n.log, n.account, n.trades[i].trade))
    && (forall i :: 0 <= i < |n.jobs| ==> JobTermed(n.log, n.account, n.jobs[i]))
    && (forall id :: id in n.rest ==> PostedAlike(n.log, id, n.rest[id]))
  }

  lemma PostedGrows(log: seq<Entry>, later: seq<Entry>, id: UInt64, o: Order)
    requires PostedAs(log, id, o) && log <= later
    ensures PostedAs(later, id, o)
  {
    var p :| Posted(id, p) in log && OfferOf(p) == OfferOf(o);
    assert Posted(id, p) in later;
  }

  /** A step after which all items are old ones or in order, and the ledger of rests is as before. */
  lemma TermedFrom(n: Node, m: Node)
    requires Termed(n) && m.account == n.account && n.log <= m.log && m.rest == n.rest
    requires forall id :: id in m.orders ==>
               (id in n.orders && OfferOf(m.orders[id]) == OfferOf(n.orders[id])) || PostedAs(m.log, id, m.orders[id])
    requires forall i :: 0 <= i < |m.trades| ==>
               m.trades[i] in n.trades || TradeTermed(m.log, m.account, m.trades[i].trade)
    requires forall i :: 0 <= i < |m.jobs| ==> m.jobs[i] in n.jobs || JobTermed(m.log, m.account, m.jobs[i])
    ensures Termed(m)
  {
    hide GetRole;
    forall id: UInt64, o | PostedAs(n.log, id, o) ensures PostedAs(m.log, id, o) {
      PostedGrows(n.log, m.log, id, o);
    }
    OrdersTermed(n, m);
    hide PostedAs;
    forall id | id in m.rest ensures PostedAlike(m.log, id, m.rest[id]) {
      AlikeGrows(n.log, m.log, id, m.rest[id]);
    }
  }

  lemma OrdersTermed(n: Node, m: Node)
    requires forall id :: id in n.orders ==> PostedAs(m.log, id, n.orders[id])
    requires forall id :: id in m.orders ==>
               (id in n.orders && OfferOf(m.orders[id]) == OfferOf(n.orders[id])) || PostedAs(m.log, id, m.orders[id])
    ensures forall id :: id in m.orders ==> PostedAs(m.log, id, m.orders[id])
  {
    forall id | id in m.orders && id in n.orders && OfferOf(m.orders[id]) == OfferOf(n.orders[id])
      ensures PostedAs(m.log, id, m.orders[id])
    {
      var p :| Posted(id, p) in m.log && OfferOf(p) == OfferOf(n.orders[id]);
    }
  }

  lemma AlikeGrows(log: seq<Entry>, later: seq<Entry>, id: UInt64, next: UInt64)
    requires PostedAlike(log, id, next) && log <= later
    ensures PostedAlike(later, id, next)
  {
    var p, q :| Posted(id, p) in log && Posted(next, q) in log && OfferOf(p) == OfferOf(q);
    assert Posted(id, p) in later && Posted(next, q) in later;
  }

  lemma SameTermed(log: seq<Entry>, later: seq<Entry>, me: string, t: TradeState, t1: TradeState)
    requires TradeTermed(log, me, t) && t1.order == t.order && log <= later
    ensures TradeTermed(later, me, t1)
  {
    if GetRole(me, t) == Maker {
      PostedGrows(log, later, t.order.id.GetOr(0), t.order);
    }
  }

  lemma TakeTermed(w: World, n: Node, o: Order, units: Int64, now: int, rpc: Rpc)
    requires Termed(n)
    ensures Termed(Take(w, n, o, units, now, rpc))
  {
    hide Take, Reply, JobTermed, PostedAs;
    var m := Take(w, n, o, units, now, rpc);
    TakeEffect(w, n, o, units, now, rpc);
    TakeHistory(w, n, o, units, now, rpc);
    TakeQuietly(w, n, o, units, now, rpc);
    TermedFrom(n, m);
  }

  lemma DeliverTermed(w: World, n: Node, msg: Message, rpc: Rpc)
    requires Termed(n)
    ensures Termed(Deliver(w, n, msg, rpc))
  {
    hide Deliver, Reply, HandleMessage, JobTermed, PostedAs, TradeTermed;
    var (m, i) := (Deliver(w, n, msg, rpc), FindMatch(n.trades, msg, 0));
    DeliverEffect(w, n, msg, rpc);
    DeliverHistory(w, n, msg, rpc);
    DeliverQuietly(w, n, msg, rpc);
    if i < |n.trades| {
      SameTermed(n.log, m.log, n.account, n.trades[i].trade, m.trades[i].trade);
    }
    TermedFrom(n, m);
  }

  lemma UpdateTickTermed(n: Node, now: int, checks: nat -> ChainCheck, limits: Limits)
    requires Termed(n)
    ensures Termed(UpdateAndArchive(n, now, checks, limits))
  {
    hide Select, HandleAll, Updated, TradeTermed, PostedAs;
    var m := UpdateAndArchive(n, now, checks, limits);
    var updated := UpdateEach(n.trades, now, checks, limits);
    var final := Select(updated, true);
    forall x | x in updated ensures TradeTermed(n.log, n.account, x.trade) {
      var i :| 0 <= i < |updated| && updated[i] == x;
      UpdatedKeepsOrder(n.trades[i].trade, now, checks(i), limits);
      SameTermed(n.log, n.log, n.account, n.trades[i].trade, x.trade);
    }
    SelectFrom(updated, true);
    SelectFrom(updated, false);
    HandleAllIs(final);
    forall i | 0 <= i < |m.trades| ensures TradeTermed(n.log, n.account, m.trades[i].trade) {
      assert m.trades[i] in updated;
    }
    forall i | 0 <= i < |final| ensures JobTermed(n.log, n.account, HandleAll(final)[i]) {
      assert final[i] in updated;
    }
    TermedFrom(n, m);
  }

  lemma StartTakingTermed(n: Node, msg: Message)
    requires Termed(n)
    ensures Termed(StartTaking(n, msg))
  {
    hide TradeTermed;
    var m := StartTaking(n, msg);
    if m != n {
      var id := msg.takingOrder.value.id;
      var p :| Posted(id, p) in n.log && OfferOf(p) == OfferOf(n.orders[id]);
      assert JobTermed(n.log, n.account, m.jobs[|n.jobs|]);
    }
    TermedFrom(n, m);
  }

  lemma OrderTakenTermed(n: Node, i: nat, now: int)
    requires Termed(n) && i < |n.jobs| && n.jobs[i].Taken? && n.jobs[i].msg.takingOrder.Some?
    ensures Termed(OrderTaken(n, i, now))
  {
    hide CheckOrder, PostedAs, GetRole, Termed, OfferOf;
    TakenIsTermed(n, i);
    TermedFrom(n, OrderTaken(n, i, now));
  }

  lemma TakenIsTermed(n: Node, i: nat)
    requires Termed(n) && i < |n.jobs| && n.jobs[i].Taken?
    ensures PostedAs(n.log, n.jobs[i].order.id.GetOr(0), n.jobs[i].order)
  {
    hide PostedAs, TradeTermed;
    assert JobTermed(n.log, n.account, n.jobs[i]);
  }

  lemma UnlockTermed(n: Node, i: nat, id: UInt64)
    requires Termed(n) && i < |n.jobs|
    ensures Termed(UnlockFor(n, i, id, []))
  {
    hide PostedAs, TradeTermed, JobTermed;
    TermedFrom(n, UnlockFor(n, i, id, []));
  }

  lemma HandleTermed(n: Node, i: nat)
    requires Termed(n) && i < |n.jobs| && n.jobs[i].Finalised?
    ensures Termed(Handle(n, i))
  {
    hide Handle, PostedAs, TradeTermed, GetRole, Rest, CanUnlock;
    var t := n.jobs[i].item.trade;
    HandleIs(n, i);
    HandleOffers(n, i);
    assert JobTermed(n.log, n.account, n.jobs[i]);
    if GetRole(n.account, t) == Maker && Rest(t).Some? {
      RestTermed(n.log, Handle(n, i).log, n.account, t);
    }
    TermedFrom(n, Handle(n, i));
  }

  lemma HandleOffers(n: Node, i: nat)
    requires i < |n.jobs| && n.jobs[i].Finalised?
    ensures var m := Handle(n, i);
            && m.rest == n.rest
            && forall id :: id in m.orders ==> id in n.orders && OfferOf(m.orders[id]) == OfferOf(n.orders[id])
  {
    hide GetRole, Rest, UnlockFor;
    var Numbered(serial, t) := n.jobs[i].item;
    UnlockOffers(n.(log := n.log + [Handled(serial, t)]), i, t.order.id.GetOr(0), [Releasing(t)]);
  }

  lemma UnlockOffers(n: Node, i: nat, id: UInt64, next: seq<Job>)
    requires i < |n.jobs|
    ensures var m := UnlockFor(n, i, id, next);
            && m.rest == n.rest
            && forall x :: x in m.orders ==> x in n.orders && OfferOf(m.orders[x]) == OfferOf(n.orders[x])
  {
  }

  lemma RestTermed(log: seq<Entry>, later: seq<Entry>, me: string, t: TradeState)
    requires TradeTermed(log, me, t) && GetRole(me, t) == Maker && Rest(t).Some? && log <= later
    ensures PostedAs(later, t.order.id.GetOr(0), Rest(t).value)
  {
    hide Rest, GetRole;
    RestKeepsTerms(t);
    PostedGrows(log, later, t.order.id.GetOr(0), t.order);
    var p :| Posted(t.order.id.GetOr(0), p) in later && OfferOf(p) == OfferOf(t.order);
  }

  lemma PostTermed(n: Node, o: Order)
    requires Termed(n)
    ensures Termed(Post(n, o))
    ensures n.nextId < TWO_64 ==> PostedAs(Post(n, o).log, n.nextId, o)
  {
    hide TradeTermed, JobTermed;
    var m := Post(n, o);
    if n.nextId < TWO_64 {
      assert m.log[|n.log|] == Posted(n.nextId, Stored(o)) && OfferOf(Stored(o)) == OfferOf(o);
      assert Posted(n.nextId, Stored(o)) in m.log;
      assert PostedAs(m.log, n.nextId, m.orders[n.nextId]);
    }
    TermedFrom(n, m);
  }

  lemma RecreateTermed(n: Node, i: nat, valid: bool)
    requires Termed(n) && i < |n.jobs| && n.jobs[i].Recreating?
    ensures Termed(Recreate(n, i, valid))
  {
    hide TradeTermed, PostedAs, PostedAlike;
    var Recreating(o, from) := n.jobs[i];
    var n1 := n.(jobs := Without(n.jobs, i));
    assert JobTermed(n.log, n.account, n.jobs[i]);
    TermedFrom(n, n1);
    if valid && n.nextId < TWO_64 {
      PostTermed(n1, o);
      PostedGrows(n.log, Post(n1, o).log, from, o);
      RestAlike(Post(n1, o).log, from, n.nextId, o);
    }
  }

  lemma RestAlike(log: seq<Entry>, id: UInt64, next: UInt64, o: Order)
    requires PostedAs(log, id, o) && PostedAs(log, next, o)
    ensures PostedAlike(log, id, next)
  {
    var p :| Posted(id, p) in log && OfferOf(p) == OfferOf(o);
    var q :| Posted(next, q) in log && OfferOf(q) == OfferOf(o);
  }

  lemma DropTermed(n: Node, ids: set<UInt64>)
    requires Termed(n)
    ensures Termed(Drop(n, ids))
  {
    hide TradeTermed, JobTermed, PostedAs;
    TermedFrom(n, Drop(n, ids));
  }

  lemma ContinueTermed(n: Node, i: nat, now: int, valid: bool)
    requires Termed(n) && i < |n.jobs|
    ensures Termed(ContinueJob(n, i, now, valid))
  {
    hide Termed, OrderTaken, UnlockFor, Handle, Recreate, ReleaseSet;
    match n.jobs[i]
    case Taken(_, msg) => if msg.takingOrder.Some? { OrderTakenTermed(n, i, now); }
    case Refused(id) => UnlockTermed(n, i, id);
    case Finalised(_) => HandleTermed(n, i);
    case Releasing(_) => FewerJobsTermed(n, ContinueJob(n, i, now, valid));
    case Recreating(_, _) => RecreateTermed(n, i, valid);
  }

  lemma FewerJobsTermed(n: Node, m: Node)
    requires Termed(n) && m.account == n.account && m.orders == n.orders && m.trades == n.trades && m.log == n.log
    requires m.rest == n.rest && forall i :: 0 <= i < |m.jobs| ==> m.jobs[i] in n.jobs
    ensures Termed(m)
  {
    hide TradeTermed, JobTermed, PostedAs;
    TermedFrom(n, m);
  }

  lemma StepTermed(w: World, n: Node, e: Event)
    requires Termed(n)
    ensures Termed(Step(w, n, e))
  {
    hide Termed, Take, Deliver, StartTaking, UpdateAndArchive, ContinueJob, Post, Drop;
    if !n.crashed {
      match e
      case AddOrder(o) => PostTermed(n, o);
      case CancelOrders(ids) => DropTermed(n, ids);
      case TakeOrder(o, units, now, rpc) => TakeTermed(w, n, o, units, now, rpc);
      case TakingMessage(msg) => StartTakingTermed(n, msg);
      case AnyMessage(msg, rpc) => DeliverTermed(w, n, msg, rpc);
      case UpdateTick(now, checks, limits) => UpdateTickTermed(n, now, checks, limits);
      case Continue(i, now, valid) => if i < |n.jobs| { ContinueTermed(n, i, now, valid); }
    }
  }

  lemma {:induction false} RunsAreTermed(w: World, account: string, wallet: set<OutPoint>, events: seq<Event>)
    ensures Termed(Run(w, NewNode(account, wallet), events))
  {
    if events != [] {
      var k := |events| - 1;
      RunsAreTermed(w, account, wallet, events[..k]);
      hide Termed, Step;
      StepTermed(w, Run(w, NewNode(account, wallet), events[..k]), events[k]);
    }
  }

  /** Along a lineage, every order was posted with one asset, side, price and minimum. */
  lemma {:induction false} LineageKeepsTerms(n: Node, ids: seq<UInt64>, p: Order, q: Order)
    requires Termed(n) && PostsInOrder(n) && Lineage(n, ids)
    requires Posted(ids[0], p) in n.log && Posted(ids[|ids| - 1], q) in n.log
    ensures p.asset == q.asset && p.orderType == q.orderType && p.priceSat == q.priceSat && p.minUnits == q.minUnits
  {
    hide TradeTermed, JobTermed, PostedAs;
    var k := |ids| - 1;
    if k > 0 {
      assert Succeeds(n, ids[k - 1], ids[k]);
      var p', q' :| Posted(ids[k - 1], p') in n.log && Posted(ids[k], q') in n.log && OfferOf(p') == OfferOf(q');
      LineageKeepsTerms(n, ids[..k], p, p');
    }
  }

  // ---------------------------------------------------------------------------

  /** The terms the user has set in a run. */
  ghost predicate SetByUser(events: seq<Event>, o: Order) {
    exists k :: 0 <= k < |events| && events[k].AddOrder?
                && events[k].order.asset == o.asset && events[k].order.orderType == o.orderType
                && events[k].order.priceSat == o.priceSat && events[k].order.minUnits == o.minUnits
  }

  lemma UserSetMore(events: seq<Event>, o: Order)
    requires events != [] && SetByUser(events[..|events| - 1], o)
    ensures SetByUser(events, o)
  {
    var before := events[..|events| - 1];
    var k :| 0 <= k < |before| && before[k].AddOrder?
             && before[k].order.asset == o.asset && before[k].order.orderType == o.orderType
             && before[k].order.priceSat == o.priceSat && before[k].order.minUnits == o.minUnits;
    assert events[k] == before[k];
  }

  lemma PostedBefore(n: Node, m: Node, msgs: set<Message>, id: UInt64, p: Order)
    requires PostsNothing(n, m, msgs) && Posted(id, p) in m.log
    ensures Posted(id, p) in n.log
  {
    var k :| 0 <= k < |m.log| && m.log[k] == Posted(id, p);
    assert m.log[k] == n.log[k];
  }

  lemma PostsIt(n: Node, o: Order, id: UInt64, p: Order)
    requires Posted(id, p) in Post(n, o).log && Posted(id, p) !in n.log
    ensures OfferOf(p) == OfferOf(o)
  {
    assert Post(n, o).log == n.log + [Posted(n.nextId, Stored(o))];
  }

  /** What a step posts is what the user adds in it, or on terms posted before. */
  lemma StepPostsTerms(w: World, n: Node, e: Event, id: UInt64, p: Order)
    requires Termed(n) && Posted(id, p) in Step(w, n, e).log && Posted(id, p) !in n.log
    ensures (e.AddOrder? && OfferOf(e.order) == OfferOf(p)) || exists from: UInt64 :: PostedAs(n.log, from, p)
  {
    hide Termed, PostedAs, Take, Deliver, UpdateAndArchive, ContinueJob, OfferOf, PostsNothing;
    match e
    case AddOrder(o) => PostsIt(n, o, id, p);
    case Continue(i, now, valid) => if i < |n.jobs| { ContinuePostsTerms(n, i, now, valid, id, p); }
    case TakeOrder(o, units, now, rpc) =>
      TakePosts(w, n, o, units, now, rpc);
      PostedBefore(n, Take(w, n, o, units, now, rpc), {}, id, p);
    case AnyMessage(msg, rpc) =>
      DeliverPosts(w, n, msg, rpc);
      PostedBefore(n, Deliver(w, n, msg, rpc), {msg}, id, p);
    case UpdateTick(now, checks, limits) => TickPosts(n, now, checks, limits);
    case _ =>
  }

  lemma TickPosts(n: Node, now: int, checks: nat -> ChainCheck, limits: Limits)
    ensures UpdateAndArchive(n, now, checks, limits).log == n.log
  {
  }

  lemma ContinuePostsTerms(n: Node, i: nat, now: int, valid: bool, id: UInt64, p: Order)
    requires Termed(n) && i < |n.jobs|
    requires Posted(id, p) in ContinueJob(n, i, now, valid).log && Posted(id, p) !in n.log
    ensures exists from: UInt64 :: PostedAs(n.log, from, p)
  {
    hide Termed, OrderTaken, UnlockFor, Handle, Recreate, ReleaseSet, PostsNothing, PostedAs;
    match n.jobs[i]
    case Taken(_, msg) =>
      if msg.takingOrder.Some? {
        OrderTakenPosts(n, i, now);
        PostedBefore(n, OrderTaken(n, i, now), {}, id, p);
      }
    case Refused(x) =>
      UnlockPosts(n, i, x, []);
      PostedBefore(n, UnlockFor(n, i, x, []), {}, id, p);
    case Finalised(_) =>
      HandlePosts(n, i);
      PostedBefore(n, Handle(n, i), {}, id, p);
    case Releasing(_) =>
    case Recreating(_, _) => RecreatePostsTerms(n, i, valid, id, p);
  }

  lemma RecreatePostsTerms(n: Node, i: nat, valid: bool, id: UInt64, p: Order)
    requires Termed(n) && i < |n.jobs| && n.jobs[i].Recreating?
    requires Posted(id, p) in Recreate(n, i, valid).log && Posted(id, p) !in n.log
    ensures PostedAs(n.log, n.jobs[i].from, p)
  {
    hide TradeTermed;
    assert JobTermed(n.log, n.account, n.jobs[i]);
    PostsIt(n.(jobs := Without(n.jobs, i)), n.jobs[i].order, id, p);
  }

  /**
   * No order is ever offered, traded on or offered again on terms the user has
   * not set: every own order and every trade of a maker in a run has the asset,
   * side, price and minimum of an order the user has added.
   */
  lemma {:induction false} TermsAreTheUsers(w: World, account: string, wallet: set<OutPoint>, events: seq<Event>,
                                            id: UInt64, p: Order)
    requires Posted(id, p) in Run(w, NewNode(account, wallet), events).log
    ensures SetByUser(events, p)
  {
    hide Step, Termed, PostedAs, SetByUser;
    var k := |events| - 1;
    var n := Run(w, NewNode(account, wallet), events[..k]);
    if Posted(id, p) in n.log {
      TermsAreTheUsers(w, account, wallet, events[..k], id, p);
      UserSetMore(events, p);
    } else {
      RunsAreTermed(w, account, wallet, events[..k]);
      StepPostsTerms(w, n, events[k], id, p);
      if events[k].AddOrder? && OfferOf(events[k].order) == OfferOf(p) {
        AddedByUser(events, k, p);
      } else {
        var from: UInt64 :| PostedAs(n.log, from, p);
        var p' := PostedOne(n.log, from, p);
        TermsAreTheUsers(w, account, wallet, events[..k], from, p');
        UserSetMore(events, p');
        SameOfferSet(events, p', p);
      }
    }
  }

  lemma AddedByUser(events: seq<Event>, k: nat, p: Order)
    requires k < |events| && events[k].AddOrder? && OfferOf(events[k].order) == OfferOf(p)
    ensures SetByUser(events, p)
  {
  }

  lemma PostedOne(log: seq<Entry>, id: UInt64, o: Order) returns (p: Order)
    requires PostedAs(log, id, o)
    ensures Posted(id, p) in log && OfferOf(p) == OfferOf(o)
  {
    p :| Posted(id, p) in log && OfferOf(p) == OfferOf(o);
  }

  lemma SameOfferSet(events: seq<Event>, p: Order, q: Order)
    requires SetByUser(events, p) && OfferOf(p) == OfferOf(q)
    ensures SetByUser(events, q)
  {
  }

  /** So for all that is offered and traded on. */
  lemma TradesAreOnUsersTerms(w: World, account: string, wallet: set<OutPoint>, events: seq<Event>)
    ensures var n := Run(w, NewNode(account, wallet), events);
            && (forall id :: id in n.orders ==> SetByUser(events, n.orders[id]))
            && (forall i :: 0 <= i < |n.trades| && n.trades[i].trade.order.account.GetOr("") == n.account ==>
                  SetByUser(events, n.trades[i].trade.order))
  {
    hide Run, SetByUser, PostedAs;
    var n := Run(w, NewNode(account, wallet), events);
    RunsAreTermed(w, account, wallet, events);
    forall id: UInt64, o | PostedAs(n.log, id, o) ensures SetByUser(events, o) {
      var p := PostedOne(n.log, id, o);
      TermsAreTheUsers(w, account, wallet, events, id, p);
      SameOfferSet(events, p, o);
    }
    forall i | 0 <= i < |n.trades| && n.trades[i].trade.order.account.GetOr("") == n.account
      ensures SetByUser(events, n.trades[i].trade.order)
    {
      assert TradeTermed(n.log, n.account, n.trades[i].trade);
    }
  }
}
