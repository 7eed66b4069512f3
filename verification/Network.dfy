/**
 * Two honest nodes that trade with each other, over a network that may drop,
 * repeat and reorder messages, and amid messages of anybody else.
 */
module Networks {
  import opened Amounts
  import opened Broadcasts
  import opened Chain
  import opened Checker
  import opened Nodes
  import opened NodeArchive
  import opened NodeOrders
  import opened NodeTrades
  import opened Orders
  import opened OwnOrders
  import opened Psbts
  import opened TradeRules
  import opened TradeRuns
  import opened Wrappers

  /** The terms of an order, apart from whether it is locked. */
  function Terms(o: Order): Order {
    o.(locked := false)
  }

  /** An order is one that its owner has posted, under the identifier it was given then. */
  ghost predicate Offered(log: seq<Entry>, owner: string, o: Order) {
    exists id: UInt64, p :: Posted(id, p) in log && Terms(o) == Terms(Copy(owner, id, p))
  }

  /** A message is one that was sent to a receiver, who sees it under the sender's name. */
  ghost predicate WasSent(log: seq<Entry>, sender: string, receiver: string, msg: Message) {
    exists t, m :: Replied(t, m) in log && m.counterparty == receiver && msg == m.(counterparty := sender)
  }

  /** The orders of a node's own and other trades, now and in what it has sent and broadcast. */
  function AllOrders(n: Node): set<Order> {
    (set i | 0 <= i < |n.trades| :: n.trades[i].trade.order)
    + (set i | 0 <= i < |n.jobs| && n.jobs[i].Taken? :: n.jobs[i].order)
    + (set i | 0 <= i < |n.log| && (n.log[i].Replied? || n.log[i].Broadcast?) :: n.log[i].trade.order)
  }

  /** The order that a step brings in. */
  function NewOrders(n: Node, e: Event): set<Order> {
    match e
    case TakeOrder(o, units, _, _) => if CheckOrder(o, units) && o.account.GetOr("") != n.account then {o} else {}
    case TakingMessage(msg) =>
      if msg.takingOrder.None? || !CanLock(n.orders, msg.takingOrder.value.id) then {}
      else {Copy(n.account, msg.takingOrder.value.id, n.orders[msg.takingOrder.value.id])}
    case _ => {}
  }

  /** Identifiers are given out once, and an own order keeps its terms. */
  ghost predicate PostsInOrder(n: Node) {
    && (forall id: UInt64, p, q :: Posted(id, p) in n.log && Posted(id, q) in n.log ==> p == q)
    && (forall id: UInt64, p :: Posted(id, p) in n.log ==> id < n.nextId)
    && (forall id :: id in n.orders ==> exists p :: Posted(id, p) in n.log && Terms(n.orders[id]) == Terms(p))
  }

  /** Messages from the peer were sent by it, and orders of either node were posted by it. */
  ghost predicate Honest(x: Node, y: Node) {
    && x.account != y.account && PostsInOrder(x)
    && (forall msg :: Received(msg) in x.log && msg.counterparty == y.account ==>
          WasSent(y.log, y.account, x.account, msg))
    && (forall o :: o in AllOrders(x) ==>
          && o.account.Some?
          && (o.account.value == x.account ==> Offered(x.log, x.account, o))
          && (o.account.value == y.account ==> Offered(y.log, y.account, o)))
  }

  /** What the network and the order book may bring to one node from the other; from others it may be anything. */
  ghost predicate Brings(x: Node, y: Node, e: Event) {
    match e
    case TakeOrder(o, _, _, _) => o.account == Some(y.account) ==> Offered(y.log, y.account, o)
    case AnyMessage(msg, _) => msg.counterparty == y.account ==> WasSent(y.log, y.account, x.account, msg)
    case _ => true
  }

  datatype Net = Net(a: Node, b: Node)

  datatype NetEvent = AtA(event: Event) | AtB(event: Event)

  ghost function NetStep(w: World, net: Net, e: NetEvent): Net {
    match e
    case AtA(event) => net.(a := Step(w, net.a, event))
    case AtB(event) => net.(b := Step(w, net.b, event))
  }

  ghost function NetRun(w: World, net: Net, events: seq<NetEvent>): Net {
    if events == [] then net else NetStep(w, NetRun(w, net, events[..|events| - 1]), events[|events| - 1])
  }

  ghost predicate PossibleStep(w: World, net: Net, e: NetEvent) {
    match e
    case AtA(event) => LawfulStep(w, net.a, event) && Brings(net.a, net.b, event)
    case AtB(event) => LawfulStep(w, net.b, event) && Brings(net.b, net.a, event)
  }

  ghost predicate PossibleRun(w: World, net: Net, events: seq<NetEvent>) {
    events == []
    || (var k := |events| - 1;
        PossibleRun(w, net, events[..k]) && PossibleStep(w, NetRun(w, net, events[..k]), events[k]))
  }

  // ---------------------------------------------------------------------------
  // Where orders come from.

  /** A step whose orders are old ones or new ones. */
  predicate BringsOnly(n: Node, m: Node, more: set<Order>) {
    && (forall i :: 0 <= i < |m.trades| ==> m.trades[i].trade.order in AllOrders(n) + more)
    && (forall i :: 0 <= i < |m.jobs| && m.jobs[i].Taken? ==> m.jobs[i].order in AllOrders(n) + more)
    && n.log <= m.log
    && (forall i :: |n.log| <= i < |m.log| && (m.log[i].Replied? || m.log[i].Broadcast?) ==>
          m.log[i].trade.order in AllOrders(n) + more)
  }

  lemma OrdersBrought(n: Node, m: Node, more: set<Order>)
    requires BringsOnly(n, m, more)
    ensures AllOrders(m) <= AllOrders(n) + more
  {
  }

  lemma ReplyLogOrders(r: Result, rpc: Rpc)
    ensures forall i :: 0 <= i < |ReplyLog(r, rpc)| ==>
              !ReplyLog(r, rpc)[i].Posted? && !ReplyLog(r, rpc)[i].Received? && !ReplyLog(r, rpc)[i].Handled?
              && ReplyLog(r, rpc)[i].trade == r.trade
  {
  }

  lemma DeliverBrings(w: World, n: Node, msg: Message, rpc: Rpc)
    ensures BringsOnly(n, Deliver(w, n, msg, rpc), {})
  {
    hide Deliver, Reply, HandleMessage, ReplyLog;
    var m := Deliver(w, n, msg, rpc);
    var i := FindMatch(n.trades, msg, 0);
    DeliverEffect(w, n, msg, rpc);
    DeliverLogs(w, n, msg, rpc);
    if i < |n.trades| {
      ReplyLogOrders(Reply(w, n.account, HandleMessage(n.account, n.trades[i].trade, msg), n.wallet, rpc), rpc);
      assert n.trades[i].trade.order in AllOrders(n);
    }
  }

  lemma DeliverLogs(w: World, n: Node, msg: Message, rpc: Rpc)
    ensures var (m, i) := (Deliver(w, n, msg, rpc), FindMatch(n.trades, msg, 0));
            if i == |n.trades| then m.log == n.log + [Received(msg)]
            else
              var r := Reply(w, n.account, HandleMessage(n.account, n.trades[i].trade, msg), n.wallet, rpc);
              m.log == n.log + [Received(msg)] + ReplyLog(r, rpc)
  {
    hide Reply, HandleMessage, ReplyLog;
  }

  lemma TakeBrings(w: World, n: Node, o: Order, units: Int64, now: int, rpc: Rpc)
    ensures BringsOnly(n, Take(w, n, o, units, now, rpc), NewOrders(n, TakeOrder(o, units, now, rpc)))
  {
    hide Take, Reply, CheckOrder, ReplyLog;
    var t := NewTrade(o, ToUInt64(units), o.account.GetOr(""), now);
    var r := Reply(w, n.account, t, n.wallet, rpc);
    ReplyKeepsOrder(w, n.account, t, n.wallet, rpc);
    TakeLogs(w, n, o, units, now, rpc);
  }

  /** The lists that starting a trade changes. */
  lemma TakeLogs(w: World, n: Node, o: Order, units: Int64, now: int, rpc: Rpc)
    ensures var (m, t) := (Take(w, n, o, units, now, rpc), NewTrade(o, ToUInt64(units), o.account.GetOr(""), now));
            var r := Reply(w, n.account, t, n.wallet, rpc);
            && m.jobs == n.jobs && n.log <= m.log
            && ((m.trades == n.trades && m.log == n.log)
                || (CheckOrder(o, units) && o.account.GetOr("") != n.account
                    && m.trades == n.trades + [Numbered(n.nextSerial, r.trade)]
                    && forall k :: |n.log| <= k < |m.log| ==>
                         !m.log[k].Posted? && !m.log[k].Received? && !m.log[k].Handled? && m.log[k].trade == r.trade))
  {
    hide Reply, CheckOrder, ReplyLog;
    var t := NewTrade(o, ToUInt64(units), o.account.GetOr(""), now);
    var r := Reply(w, n.account, t, n.wallet, rpc);
    var msg := (if r.outcome.Sent? then r.outcome.msg else BasicMessage(t))
                   .(takingOrder := Some(TakingOrder(o.id.GetOr(0), t.units)));
    ReplyLogOrders(r.(outcome := Sent(msg)), rpc);
  }

  lemma UpdateTickBrings(n: Node, now: int, checks: nat -> ChainCheck, limits: Limits)
    ensures BringsOnly(n, UpdateAndArchive(n, now, checks, limits), {})
  {
    hide Select, HandleAll, Updated;
    var m := UpdateAndArchive(n, now, checks, limits);
    var updated := UpdateEach(n.trades, now, checks, limits);
    forall i | 0 <= i < |updated| ensures updated[i].trade.order == n.trades[i].trade.order {
      UpdatedKeepsOrder(n.trades[i].trade, now, checks(i), limits);
    }
    SelectFrom(updated, false);
    HandleAllIs(Select(updated, true));
    forall i | 0 <= i < |m.trades| ensures m.trades[i].trade.order in AllOrders(n) {
      assert m.trades[i] in updated;
    }
  }

  lemma StepBrings(w: World, n: Node, e: Event)
    ensures BringsOnly(n, Step(w, n, e), NewOrders(n, e))
  {
    hide Take, Deliver, UpdateAndArchive, ContinueJob, CheckOrder;
    if !n.crashed {
      match e
      case TakeOrder(o, units, now, rpc) => TakeBrings(w, n, o, units, now, rpc);
      case AnyMessage(msg, rpc) => DeliverBrings(w, n, msg, rpc);
      case UpdateTick(now, checks, limits) => UpdateTickBrings(n, now, checks, limits);
      case AddOrder(_) =>
      case CancelOrders(_) =>
      case TakingMessage(_) =>
      case Continue(i, now, valid) => if i < |n.jobs| { ContinueBrings(n, i, now, valid); }
    }
  }

  lemma ContinueBrings(n: Node, i: nat, now: int, valid: bool)
    requires i < |n.jobs|
    ensures BringsOnly(n, ContinueJob(n, i, now, valid), {})
  {
    hide OrderTaken, UnlockFor, Handle, Recreate, ReleaseSet, BringsOnly, AllOrders;
    match n.jobs[i]
    case Taken(_, msg) => if msg.takingOrder.Some? { OrderTakenBrings(n, i, now); } else { FewerOrders(n, n); }
    case Refused(id) => UnlockBrings(n, i, id, []);
    case Finalised(_) => HandleBrings(n, i);
    case Releasing(_) => FewerOrders(n, ContinueJob(n, i, now, valid));
    case Recreating(_, _) => RecreateBrings(n, i, valid);
  }

  /** A step that changes no trade, logs no message and adds no job with an order to it. */
  lemma FewerOrders(n: Node, m: Node)
    requires m.trades == n.trades && n.log <= m.log
    requires forall k :: |n.log| <= k < |m.log| ==> !m.log[k].Replied? && !m.log[k].Broadcast?
    requires forall k :: 0 <= k < |m.jobs| && m.jobs[k].Taken? ==> m.jobs[k] in n.jobs
    ensures BringsOnly(n, m, {})
  {
  }

  lemma OrderTakenBrings(n: Node, i: nat, now: int)
    requires i < |n.jobs| && n.jobs[i].Taken? && n.jobs[i].msg.takingOrder.Some?
    ensures BringsOnly(n, OrderTaken(n, i, now), {})
  {
    hide CheckOrder;
    assert n.jobs[i].order in AllOrders(n);
  }

  lemma UnlockBrings(n: Node, i: nat, id: UInt64, next: seq<Job>)
    requires i < |n.jobs| && (forall j :: 0 <= j < |next| ==> !next[j].Taken?)
    ensures BringsOnly(n, UnlockFor(n, i, id, next), {})
  {
    hide CanUnlock, Unlocked, BringsOnly, AllOrders;
    FewerOrders(n, UnlockFor(n, i, id, next));
  }

  lemma RecreateBrings(n: Node, i: nat, valid: bool)
    requires i < |n.jobs| && n.jobs[i].Recreating?
    ensures BringsOnly(n, Recreate(n, i, valid), {})
  {
    hide BringsOnly, AllOrders;
    FewerOrders(n, Recreate(n, i, valid));
  }

  lemma HandleBrings(n: Node, i: nat)
    requires i < |n.jobs| && n.jobs[i].Finalised?
    ensures BringsOnly(n, Handle(n, i), {})
  {
    hide Handle, GetRole, Rest, CanUnlock, BringsOnly, AllOrders;
    HandleIs(n, i);
    FewerOrders(n, Handle(n, i));
  }

  // ---------------------------------------------------------------------------
  // What is received and posted.

  /** A step that posts nothing, receives at most one message and keeps the terms of orders. */
  predicate PostsNothing(n: Node, m: Node, msgs: set<Message>) {
    && n.log <= m.log && m.nextId == n.nextId
    && (forall k :: |n.log| <= k < |m.log| ==> !m.log[k].Posted? && (m.log[k].Received? ==> m.log[k].msg in msgs))
    && (forall id :: id in m.orders ==> id in n.orders && Terms(m.orders[id]) == Terms(n.orders[id]))
  }

  /** A step that posts one order under a fresh identifier. */
  predicate PostsOne(n: Node, m: Node) {
    && |m.log| == |n.log| + 1 && n.log <= m.log && n.nextId < TWO_64 && m.nextId == n.nextId + 1
    && m.log[|n.log|].Posted? && m.log[|n.log|].id == n.nextId
    && m.orders == n.orders[n.nextId := m.log[|n.log|].order]
  }

  lemma PostsNothingKeeps(n: Node, m: Node, msgs: set<Message>)
    requires PostsInOrder(n) && PostsNothing(n, m, msgs)
    ensures PostsInOrder(m)
    ensures forall msg :: Received(msg) in m.log ==> Received(msg) in n.log || msg in msgs
  {
    assert forall id: UInt64, p :: Posted(id, p) in m.log <==> Posted(id, p) in n.log by {
      forall e | e in m.log && e.Posted? ensures e in n.log {
        var k :| 0 <= k < |m.log| && m.log[k] == e;
        assert m.log[k] == n.log[k];
      }
      forall e | e in n.log ensures e in m.log {
        var k :| 0 <= k < |n.log| && n.log[k] == e;
        assert m.log[k] == e;
      }
    }
    forall msg | Received(msg) in m.log ensures Received(msg) in n.log || msg in msgs {
      var k :| 0 <= k < |m.log| && m.log[k] == Received(msg);
      if k < |n.log| {
        assert n.log[k] == m.log[k];
      }
    }
  }

  lemma PostsOneKeeps(n: Node, m: Node)
    requires PostsInOrder(n) && PostsOne(n, m)
    ensures PostsInOrder(m)
    ensures forall msg :: Received(msg) in m.log ==> Received(msg) in n.log
  {
    assert m.log == n.log + [m.log[|n.log|]];
    forall id | id in m.orders ensures exists p :: Posted(id, p) in m.log && Terms(m.orders[id]) == Terms(p) {
      if id == n.nextId {
        assert Posted(id, m.log[|n.log|].order) in m.log;
      } else {
        var p :| Posted(id, p) in n.log && Terms(n.orders[id]) == Terms(p);
        assert Posted(id, p) in m.log;
      }
    }
  }

  lemma StepPosts(w: World, n: Node, e: Event)
    ensures var m := Step(w, n, e);
            PostsOne(n, m) || PostsNothing(n, m, if e.AnyMessage? then {e.msg} else {})
  {
    hide Take, Deliver, ContinueJob;
    if !n.crashed {
      match e
      case TakeOrder(o, units, now, rpc) => TakePosts(w, n, o, units, now, rpc);
      case AnyMessage(msg, rpc) => DeliverPosts(w, n, msg, rpc);
      case Continue(i, now, valid) => if i < |n.jobs| { ContinuePosts(n, i, now, valid); }
      case UpdateTick(_, _, _) =>
      case AddOrder(_) =>
      case CancelOrders(_) =>
      case TakingMessage(_) =>
    }
  }

  lemma TakePosts(w: World, n: Node, o: Order, units: Int64, now: int, rpc: Rpc)
    ensures PostsNothing(n, Take(w, n, o, units, now, rpc), {})
  {
    hide Take, Reply, CheckOrder;
    TakeEffect(w, n, o, units, now, rpc);
    TakeLogs(w, n, o, units, now, rpc);
  }

  lemma DeliverPosts(w: World, n: Node, msg: Message, rpc: Rpc)
    ensures PostsNothing(n, Deliver(w, n, msg, rpc), {msg})
  {
    hide Deliver, Reply, HandleMessage, ReplyLog;
    DeliverEffect(w, n, msg, rpc);
    DeliverLogs(w, n, msg, rpc);
    var i := FindMatch(n.trades, msg, 0);
    if i < |n.trades| {
      ReplyLogOrders(Reply(w, n.account, HandleMessage(n.account, n.trades[i].trade, msg), n.wallet, rpc), rpc);
    }
  }

  lemma ContinuePosts(n: Node, i: nat, now: int, valid: bool)
    requires i < |n.jobs|
    ensures var m := ContinueJob(n, i, now, valid); PostsOne(n, m) || PostsNothing(n, m, {})
  {
    hide OrderTaken, UnlockFor, Handle, Recreate, ReleaseSet;
    match n.jobs[i]
    case Taken(_, msg) => if msg.takingOrder.Some? { OrderTakenPosts(n, i, now); }
    case Refused(id) => UnlockPosts(n, i, id, []);
    case Finalised(_) => HandlePosts(n, i);
    case Releasing(_) =>
    case Recreating(_, _) => RecreatePosts(n, i, valid);
  }

  lemma OrderTakenPosts(n: Node, i: nat, now: int)
    requires i < |n.jobs| && n.jobs[i].Taken? && n.jobs[i].msg.takingOrder.Some?
    ensures PostsNothing(n, OrderTaken(n, i, now), {})
  {
    hide CheckOrder;
  }

  lemma UnlockPosts(n: Node, i: nat, id: UInt64, next: seq<Job>)
    requires i < |n.jobs|
    ensures PostsNothing(n, UnlockFor(n, i, id, next), {})
  {
  }

  lemma RecreatePosts(n: Node, i: nat, valid: bool)
    requires i < |n.jobs| && n.jobs[i].Recreating?
    ensures var m := Recreate(n, i, valid); PostsOne(n, m) || PostsNothing(n, m, {})
  {
  }

  lemma HandlePosts(n: Node, i: nat)
    requires i < |n.jobs| && n.jobs[i].Finalised?
    ensures PostsNothing(n, Handle(n, i), {})
  {
    hide GetRole, Rest, UnlockFor, PostsNothing;
    var Numbered(serial, t) := n.jobs[i].item;
    var n1 := n.(log := n.log + [Handled(serial, t)]);
    UnlockPosts(n1, i, t.order.id.GetOr(0), [Releasing(t)]);
    HandledPosts(n, Handled(serial, t), Handle(n, i), t.order.id.GetOr(0));
    HandledPosts(n, Handled(serial, t), UnlockFor(n1, i, t.order.id.GetOr(0), [Releasing(t)]), 0);
  }

  lemma HandledPosts(n: Node, e: Entry, m: Node, id: UInt64)
    requires e.Handled?
    ensures m.log in {n.log, n.log + [e]} && m.nextId == n.nextId
            && (m.orders == n.orders || m.orders == n.orders - {id})
            ==> PostsNothing(n, m, {})
    ensures PostsNothing(n.(log := n.log + [e]), m, {}) ==> PostsNothing(n, m, {})
  {
  }

  /** Identifiers of own orders are never given out twice, in any run. */
  lemma {:induction false} IdentifiersAreNotReused(w: World, account: string, wallet: set<OutPoint>, events: seq<Event>)
    ensures PostsInOrder(Run(w, NewNode(account, wallet), events))
  {
    hide Step, PostsInOrder, PostsOne, PostsNothing;
    if events == [] {
      NothingPosted(account, wallet);
    } else {
      var k := |events| - 1;
      var n := Run(w, NewNode(account, wallet), events[..k]);
      IdentifiersAreNotReused(w, account, wallet, events[..k]);
      StepPosts(w, n, events[k]);
      if PostsOne(n, Step(w, n, events[k])) {
        PostsOneKeeps(n, Step(w, n, events[k]));
      } else {
        PostsNothingKeeps(n, Step(w, n, events[k]), if events[k].AnyMessage? then {events[k].msg} else {});
      }
    }
  }

  lemma NothingPosted(account: string, wallet: set<OutPoint>)
    ensures PostsInOrder(NewNode(account, wallet))
  {
  }

  // ---------------------------------------------------------------------------
  // What both nodes keep.

  lemma OfferedGrows(log: seq<Entry>, later: seq<Entry>, owner: string, o: Order)
    requires Offered(log, owner, o) && log <= later
    ensures Offered(later, owner, o)
  {
    var id: UInt64, p :| Posted(id, p) in log && Terms(o) == Terms(Copy(owner, id, p));
    assert Posted(id, p) in later;
  }

  lemma WasSentGrows(log: seq<Entry>, later: seq<Entry>, sender: string, receiver: string, msg: Message)
    requires WasSent(log, sender, receiver, msg) && log <= later
    ensures WasSent(later, sender, receiver, msg)
  {
    var t, m :| Replied(t, m) in log && m.counterparty == receiver && msg == m.(counterparty := sender);
    assert Replied(t, m) in later;
  }

  /** The other node did something. */
  lemma PeerStepKeepsHonest(x: Node, y: Node, y1: Node)
    requires Honest(x, y) && y1.account == y.account && y.log <= y1.log
    ensures Honest(x, y1)
  {
    hide PostsInOrder, AllOrders;
    forall msg | Received(msg) in x.log && msg.counterparty == y.account
      ensures WasSent(y1.log, y.account, x.account, msg)
    {
      WasSentGrows(y.log, y1.log, y.account, x.account, msg);
    }
    forall o | o in AllOrders(x) && o.account.value == y.account ensures Offered(y1.log, y.account, o) {
      OfferedGrows(y.log, y1.log, y.account, o);
    }
  }

  /** The orders a step brings in are known: a copy of an own order, or one the network may bring. */
  lemma NewOrdersKnown(x: Node, y: Node, e: Event, o: Order)
    requires PostsInOrder(x) && Brings(x, y, e) && o in NewOrders(x, e) && x.account != y.account
    ensures o.account.Some?
    ensures o.account.value == x.account ==> Offered(x.log, x.account, o)
    ensures o.account.value == y.account ==> Offered(y.log, y.account, o)
  {
    if e.TakingMessage? {
      var id := e.msg.takingOrder.value.id;
      var p :| Posted(id, p) in x.log && Terms(x.orders[id]) == Terms(p);
      assert Terms(o) == Terms(Copy(x.account, id, p));
    }
  }

  lemma OwnStepKeepsHonest(w: World, x: Node, y: Node, e: Event)
    requires Honest(x, y) && Brings(x, y, e)
    ensures Honest(Step(w, x, e), y)
  {
    hide Step, AllOrders, NewOrders, BringsOnly, PostsInOrder;
    var x1 := Step(w, x, e);
    StepGrows(w, x, e);
    StepPosts(w, x, e);
    StepBrings(w, x, e);
    OrdersBrought(x, x1, NewOrders(x, e));
    if PostsOne(x, x1) {
      PostsOneKeeps(x, x1);
    } else {
      PostsNothingKeeps(x, x1, if e.AnyMessage? then {e.msg} else {});
    }
    forall o | o in AllOrders(x1)
      ensures o.account.Some?
      ensures o.account.value == x.account ==> Offered(x1.log, x.account, o)
      ensures o.account.value == y.account ==> Offered(y.log, y.account, o)
    {
      if o in NewOrders(x, e) {
        NewOrdersKnown(x, y, e, o);
      }
      if o.account.value == x.account {
        OfferedGrows(x.log, x1.log, x.account, o);
      }
    }
  }

  ghost predicate NetInvariant(w: World, net: Net) {
    Sound(w, net.a) && Sound(w, net.b) && Honest(net.a, net.b) && Honest(net.b, net.a)
  }

  lemma NetStepKeeps(w: World, net: Net, e: NetEvent)
    requires NetInvariant(w, net) && PossibleStep(w, net, e)
    ensures NetInvariant(w, NetStep(w, net, e))
  {
    hide Sound, Honest, Step;
    match e
    case AtA(event) =>
      StepSound(w, net.a, event);
      StepGrows(w, net.a, event);
      OwnStepKeepsHonest(w, net.a, net.b, event);
      PeerStepKeepsHonest(net.b, net.a, Step(w, net.a, event));
    case AtB(event) =>
      StepSound(w, net.b, event);
      StepGrows(w, net.b, event);
      OwnStepKeepsHonest(w, net.b, net.a, event);
      PeerStepKeepsHonest(net.a, net.b, Step(w, net.b, event));
  }

  lemma {:induction false} NetRunsKeep(w: World, a: Node, b: Node, events: seq<NetEvent>)
    requires a == NewNode(a.account, a.wallet) && b == NewNode(b.account, b.wallet) && a.account != b.account
    requires PossibleRun(w, Net(a, b), events)
    ensures NetInvariant(w, NetRun(w, Net(a, b), events))
  {
    if events != [] {
      var k := |events| - 1;
      NetRunsKeep(w, a, b, events[..k]);
      hide NetInvariant, NetStep;
      NetStepKeeps(w, NetRun(w, Net(a, b), events[..k]), events[k]);
    }
  }

  // ---------------------------------------------------------------------------
  // The agreement.

  /** Moves of the game that differ in units differ. */
  ghost predicate MovesTellUnits(w: World) {
    forall seller, buyer, asset, u, v ::
      w.updateValue(seller, buyer, asset, u) == w.updateValue(seller, buyer, asset, v) ==> u == v
  }

  /**
   * A seller's and a buyer's trade are on one transaction: the seller's checks
   * of outputs and signature passed on it, and so did the buyer's check of the
   * trade, which found just the name input that the seller has locked. The move
   * in it is what both have agreed to, down to the units if moves tell them apart.
   */
  ghost predicate Agree(w: World, seller: string, s: TradeState, buyer: string, b: TradeState, log: seq<Entry>,
                        tx: Tx) {
    && s.counterparty == buyer && b.counterparty == seller && GetIdentifier(s) == GetIdentifier(b)
    && GetOrderType(seller, s) == Ask && GetOrderType(buyer, b) == Bid
    && GetParams(seller, s).(units := 0) == GetParams(buyer, b).(units := 0)
    && AgreedMove(w, GetParams(seller, s)) == AgreedMove(w, GetParams(buyer, b))
    && (MovesTellUnits(w) ==> s.units == b.units)
    && SellerSigned(w, seller, s) && s.ourPsbt.value.tx == tx
    && exists e, unsigned ::
         && e in log && IsVetting(w, buyer, e, b, unsigned) && b.ourPsbt.value.tx == tx
         && e.view.isAsset && e.view.canBuy
         && s.sellerData.value.nameOutput == Some(e.nameIn) && e.nameIn in tx.vin
  }

  /** What a maker's broadcast implies: every input is signed, and the taker's trade was pending on it. */
  ghost predicate TakerIsPending(w: World, maker: Node, t: TradeState, taker: Node, tx: Tx) {
    && EveryInputSigned(maker.account, t) && t.ourPsbt.value.tx == tx
    && exists t', m ::
      && Replied(t', m) in taker.log && GetRole(taker.account, t') == Taker && t'.counterparty == maker.account
      && t'.state == Pending && t'.ourPsbt.Some? && t'.ourPsbt.value.tx == tx
      && m.psbt == Some(Encoded(t'.ourPsbt.value))
      && if GetOrderType(maker.account, t) == Ask
         then Agree(w, maker.account, t, taker.account, t', taker.log, tx)
         else Agree(w, taker.account, t', maker.account, t, maker.log, tx)
  }

  /** Trades of two nodes under one identifier are for the same order. */
  lemma SameIdSameTerms(x: Node, o: Order, o': Order)
    requires PostsInOrder(x) && Offered(x.log, x.account, o) && Offered(x.log, x.account, o')
    requires o.id.GetOr(0) == o'.id.GetOr(0)
    ensures Terms(o) == Terms(o')
  {
  }

  /** The only name input in a buyer's transaction is the one they verified. */
  lemma OneNameInput(w: World, seller: string, s: TradeState, buyer: string, b: TradeState, unsigned: Psbt,
                     nameIn: OutPoint)
    requires Consistent(w, seller, s) && SellerSigned(w, seller, s) && BuyerSigned(w, buyer, b, unsigned, nameIn)
    requires s.ourPsbt.value.tx == b.ourPsbt.value.tx
    ensures s.sellerData.value.nameOutput == Some(nameIn)
  {
    var out := s.sellerData.value.nameOutput.value;
    assert w.nameOf(out) == Some(seller);
    hide PaysSeller, AllButOneChanged, Signs, OutputsVerdict, Consistent;
    var theirs := s.theirPsbt.value.psbt;
    var i :| IsFirstInput(theirs.tx, out, i);
    assert out in b.ourPsbt.value.tx.vin;
  }

  /** The seller has seen their move in the outputs, and the buyer has put only theirs there. */
  lemma OneMove(w: World, seller: string, s: TradeState, buyer: string, b: TradeState, unsigned: Psbt, nameIn: OutPoint)
    requires SellerSigned(w, seller, s) && BuyerSigned(w, buyer, b, unsigned, nameIn)
    requires s.ourPsbt.value.tx == b.ourPsbt.value.tx
    ensures AgreedMove(w, GetParams(seller, s)) == AgreedMove(w, GetParams(buyer, b))
  {
    hide AllButOneChanged, OnlyInputChanged, GetTotalSat, GetParams;
    var (p, sd, tx) := (GetParams(seller, s), s.sellerData.value, b.ourPsbt.value.tx);
    var j :| 0 <= j < |tx.vout|
             && IsNameUpdate(tx.vout[j], sd.nameAddress.value, GetXayaName(p.seller), GetNameUpdateValue(w, p));
    assert tx.vout[j] in tx.vout;
  }

  lemma SameUnits(w: World, seller: string, s: TradeState, buyer: string, b: TradeState)
    requires GetParams(seller, s).(units := 0) == GetParams(buyer, b).(units := 0)
    requires AgreedMove(w, GetParams(seller, s)) == AgreedMove(w, GetParams(buyer, b)) && MovesTellUnits(w)
    ensures s.units == b.units
  {
    var (p, q) := (GetParams(seller, s), GetParams(buyer, b));
    assert w.updateValue(p.seller, p.buyer, p.asset, p.units) == w.updateValue(q.seller, q.buyer, q.asset, q.units);
  }

  lemma TypesAreOpposite(maker: string, t: TradeState, taker: string, t': TradeState)
    requires maker != taker && t.counterparty == taker && t'.counterparty == maker
    requires t.order.account == Some(maker) && t'.order.account == Some(maker) && Terms(t.order) == Terms(t'.order)
    ensures GetRole(maker, t) == Maker && GetRole(taker, t') == Taker
    ensures GetOrderType(maker, t) == Ask <==> GetOrderType(taker, t') == Bid
    ensures GetParams(maker, t).(units := 0) == GetParams(taker, t').(units := 0)
  {
  }

  lemma SoundEntry(w: World, n: Node, e: Entry)
    requires Sound(w, n) && e in n.log
    ensures EntrySound(w, n.account, n.log, e)
  {
    var k :| 0 <= k < |n.log| && n.log[k] == e;
  }

  /** The counterparty's PSBT came from the counterparty. */
  lemma TheirsWasSent(w: World, x: Node, y: Node, t: TradeState) returns (t': TradeState, m: Message)
    requires Honest(x, y) && TradeSound(w, x.account, x.log, t) && t.counterparty == y.account && t.theirPsbt.Some?
    ensures Replied(t', m) in y.log && m.psbt == t.theirPsbt
    ensures m.counterparty == x.account && m.identifier == GetIdentifier(t)
  {
    hide Consistent, Vetted, PostsInOrder, AllOrders, GetIdentifier;
    var msg :| Received(msg) in x.log && Matches(t, msg) && msg.psbt == t.theirPsbt;
    hide TradeSound, Heard;
    assert WasSent(y.log, y.account, x.account, msg);
    hide Honest;
    t', m :| Replied(t', m) in y.log && m.counterparty == x.account && msg == m.(counterparty := y.account);
  }

  /** The message with which the taker shared the PSBT the maker has broadcast. */
  lemma TakerHasSent(w: World, x: Node, y: Node, t: TradeState, tx: Tx) returns (t': TradeState, m: Message)
    requires Sound(w, x) && Sound(w, y) && Honest(x, y)
    requires Broadcast(t, tx) in x.log && t.counterparty == y.account
    ensures Replied(t', m) in y.log && t'.counterparty == x.account && GetIdentifier(t') == GetIdentifier(t)
    ensures GetRole(y.account, t') == Taker && m.psbt == t.theirPsbt && TradeSound(w, y.account, y.log, t')
    ensures t'.state == Pending && t'.ourPsbt.Some? && m.psbt == Some(Encoded(t'.ourPsbt.value))
  {
    hide TradeSound, Sound;
    SoundEntry(w, x, Broadcast(t, tx));
    t', m := TheirsWasSent(w, x, y, t);
    SoundEntry(w, y, Replied(t', m));
    assert x.account != y.account;
    hide Honest;
  }

  /**
   * Whenever the maker of two honest nodes has broadcast a transaction, some
   * trade of the taker had become pending on it, and both had checked it.
   */
  lemma BroadcastIsAgreed(w: World, x: Node, y: Node, t: TradeState, tx: Tx)
    requires Sound(w, x) && Sound(w, y) && Honest(x, y) && Honest(y, x)
    requires Broadcast(t, tx) in x.log && t.counterparty == y.account
    ensures TakerIsPending(w, x, t, y, tx)
  {
    hide Sound, Honest, TradeSound, Agree, EveryInputSigned;
    var t', m := TakerHasSent(w, x, y, t, tx);
    SoundEntry(w, x, Broadcast(t, tx));
    SameOrder(x, y, t, tx, t', m);
    TypesAreOpposite(x.account, t, y.account, t');
    if GetOrderType(x.account, t) == Ask {
      TradesAgree(w, x.account, x.log, t, y.account, y.log, t', tx);
    } else {
      TradesAgree(w, y.account, y.log, t', x.account, x.log, t, tx);
    }
  }

  lemma SameOrder(x: Node, y: Node, t: TradeState, tx: Tx, t': TradeState, m: Message)
    requires Honest(x, y) && Honest(y, x) && Broadcast(t, tx) in x.log && Replied(t', m) in y.log
    requires GetRole(x.account, t) == Maker && GetIdentifier(t') == GetIdentifier(t)
    ensures t.order.account == Some(x.account) && t'.order.account == Some(x.account)
            && Terms(t.order) == Terms(t'.order)
  {
    assert t.order in AllOrders(x) && t'.order in AllOrders(y);
    hide AllOrders;
    SameIdSameTerms(x, t.order, t'.order);
  }

  lemma TradesAgree(w: World, seller: string, sellerLog: seq<Entry>, s: TradeState,
                    buyer: string, log: seq<Entry>, b: TradeState, tx: Tx)
    requires TradeSound(w, seller, sellerLog, s) && TradeSound(w, buyer, log, b)
    requires s.counterparty == buyer && b.counterparty == seller && GetIdentifier(s) == GetIdentifier(b)
    requires GetOrderType(seller, s) == Ask && GetOrderType(buyer, b) == Bid
    requires GetParams(seller, s).(units := 0) == GetParams(buyer, b).(units := 0)
    requires s.ourPsbt.Some? && s.ourPsbt.value.tx == tx && b.ourPsbt.Some? && b.ourPsbt.value.tx == tx
    ensures Agree(w, seller, s, buyer, b, log, tx)
  {
    hide SellerSigned, BuyerSigned;
    assert SellerSigned(w, seller, s);
    var e, unsigned :| e in log && IsVetting(w, buyer, e, b, unsigned);
    OneNameInput(w, seller, s, buyer, b, unsigned, e.nameIn);
    OneMove(w, seller, s, buyer, b, unsigned, e.nameIn);
    if MovesTellUnits(w) {
      SameUnits(w, seller, s, buyer, b);
    }
    assert e.nameIn in tx.vin by { VerifiedIsSpent(w, buyer, b, unsigned, e.nameIn); }
  }

  lemma VerifiedIsSpent(w: World, me: string, t: TradeState, unsigned: Psbt, nameIn: OutPoint)
    requires BuyerSigned(w, me, t, unsigned, nameIn)
    ensures nameIn in t.ourPsbt.value.tx.vin
  {
  }

  /** The same for all runs of two new nodes with coins locked before. */
  lemma HonestNodesAgree(w: World, a: Node, b: Node, events: seq<NetEvent>, t: TradeState, tx: Tx)
    requires a == NewNode(a.account, a.wallet) && b == NewNode(b.account, b.wallet) && a.account != b.account
    requires PossibleRun(w, Net(a, b), events)
    ensures var net := NetRun(w, Net(a, b), events);
            && (Broadcast(t, tx) in net.a.log && t.counterparty == net.b.account
                ==> TakerIsPending(w, net.a, t, net.b, tx))
            && (Broadcast(t, tx) in net.b.log && t.counterparty == net.a.account
                ==> TakerIsPending(w, net.b, t, net.a, tx))
  {
    hide Sound, Honest, TakerIsPending, NetRun;
    NetRunsKeep(w, a, b, events);
    var net := NetRun(w, Net(a, b), events);
    if Broadcast(t, tx) in net.a.log && t.counterparty == net.b.account {
      BroadcastIsAgreed(w, net.a, net.b, t, tx);
    }
    if Broadcast(t, tx) in net.b.log && t.counterparty == net.a.account {
      BroadcastIsAgreed(w, net.b, net.a, t, tx);
    }
  }

  // ---------------------------------------------------------------------------
  // The start of a trade on both sides.

  /** The first message of a taker carries their trade's order and units. */
  lemma TakersMessage(w: World, y: Node, o: Order, units: Int64, now: int, rpc: Rpc)
    returns (t: TradeState, m: Message)
    requires |Take(w, y, o, units, now, rpc).trades| == |y.trades| + 1
    ensures CheckOrder(o, units) && o.account.GetOr("") != y.account
    ensures var y1 := Take(w, y, o, units, now, rpc);
            y1.trades == y.trades + [Numbered(y.nextSerial, t)] && Replied(t, m) in y1.log
    ensures t.order == o && t.units == ToUInt64(units) && t.counterparty == o.account.GetOr("")
    ensures m.counterparty == t.counterparty && m.takingOrder == Some(TakingOrder(o.id.GetOr(0), t.units))
  {
    hide Reply, CheckOrder;
    var t0 := NewTrade(o, ToUInt64(units), o.account.GetOr(""), now);
    var r := Reply(w, y.account, t0, y.wallet, rpc);
    t := r.trade;
    m := (if r.outcome.Sent? then r.outcome.msg else BasicMessage(t0))
           .(takingOrder := Some(TakingOrder(o.id.GetOr(0), t0.units)));
    ReplyKeepsOrder(w, y.account, t0, y.wallet, rpc);
    FirstMessageTo(w, y.account, t0, y.wallet, rpc);
    assert Replied(t, m) in ReplyLog(r.(outcome := Sent(m)), rpc);
  }

  lemma FirstMessageTo(w: World, me: string, t: TradeState, wallet: set<OutPoint>, rpc: Rpc)
    requires t == NewTrade(t.order, t.units, t.counterparty, t.startTime)
    ensures var r := Reply(w, me, t, wallet, rpc); r.outcome.Sent? ==> r.outcome.msg.counterparty == t.counterparty
  {
  }

  /**
   * If the maker still has the order when the taker's first message arrives,
   * both end up with a trade on the same terms, from opposite sides.
   */
  lemma TakenOnTheSameTerms(w: World, x: Node, y: Node, o: Order, units: Int64, now: int, rpc: Rpc, later: int)
    requires PostsInOrder(x) && Offered(x.log, x.account, o) && x.account != y.account
    requires |Take(w, y, o, units, now, rpc).trades| == |y.trades| + 1 && CanLock(x.orders, o.id.GetOr(0))
    ensures exists t, m, u ::
      && Take(w, y, o, units, now, rpc).trades == y.trades + [Numbered(y.nextSerial, t)]
      && Replied(t, m) in Take(w, y, o, units, now, rpc).log && m.counterparty == x.account && m.takingOrder.Some?
      && var x1 := StartTaking(x, m.(counterparty := y.account));
      && |x1.jobs| == |x.jobs| + 1 && x1.jobs[|x.jobs|].Taken? && x1.jobs[|x.jobs|].msg.takingOrder.Some?
      && OrderTaken(x1, |x.jobs|, later).trades == x.trades + [Numbered(x.nextSerial, u)]
      && u.counterparty == y.account && GetIdentifier(u) == GetIdentifier(t)
      && GetParams(x.account, u) == GetParams(y.account, t) && GetOrderType(x.account, u) != GetOrderType(y.account, t)
  {
    hide Take, PostsInOrder, Offered, CheckOrder;
    var t, m := TakersMessage(w, y, o, units, now, rpc);
    var (id, msg) := (o.id.GetOr(0), m.(counterparty := y.account));
    var copy := Copy(x.account, id, x.orders[id]);
    CopyHasTerms(x, o);
    SameTermsAccepted(copy, o, units);
    var x1 := StartTaking(x, msg);
    var u := NewTrade(copy, t.units, y.account, later);
    assert OrderTaken(x1, |x.jobs|, later).trades == x.trades + [Numbered(x.nextSerial, u)];
    TypesAreOpposite(x.account, u, y.account, t);
    SameParams(x.account, u, y.account, t);
  }

  lemma CopyHasTerms(x: Node, o: Order)
    requires PostsInOrder(x) && Offered(x.log, x.account, o) && o.id.GetOr(0) in x.orders
    ensures Terms(Copy(x.account, o.id.GetOr(0), x.orders[o.id.GetOr(0)])) == Terms(o)
    ensures o.account == Some(x.account) && o.id.Some?
  {
    var id: UInt64, p :| Posted(id, p) in x.log && Terms(o) == Terms(Copy(x.account, id, p));
    var q :| Posted(id, q) in x.log && Terms(x.orders[id]) == Terms(q);
  }

  lemma SameTermsAccepted(o: Order, o': Order, units: Int64)
    requires Terms(o) == Terms(o') && CheckOrder(o', units)
    ensures CheckOrder(o, ToInt64(ToUInt64(units))) && ToUInt64(ToInt64(ToUInt64(units))) == ToUInt64(units)
  {
  }

  lemma SameParams(maker: string, u: TradeState, taker: string, t: TradeState)
    requires GetParams(maker, u).(units := 0) == GetParams(taker, t).(units := 0) && u.units == t.units
    ensures GetParams(maker, u) == GetParams(taker, t)
  {
  }
}
