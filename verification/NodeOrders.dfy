/**
 * Exclusive use of own orders under every interleaving: who holds an order, and
 * when the CHECKs on unlocking can fail.
 */
module NodeOrders {
  import opened Amounts
  import opened Chain
  import opened Nodes
  import opened Orders
  import opened OwnOrders
  import opened Psbts
  import opened Sums
  import opened TradeRules
  import opened TradeRuns
  import opened Wrappers

  /** Whether a trade is for an order of ours. */
  function HeldBy(me: string, id: UInt64, t: TradeState): nat {
    if GetRole(me, t) == Maker && t.order.id.GetOr(0) == id then 1 else 0
  }

  function TradeHolds(me: string, id: UInt64): Numbered -> nat {
    (x: Numbered) => HeldBy(me, id, x.trade)
  }

  /** Whether a job has locked an order and will unlock it, pass it on or remove it. */
  function JobHeld(me: string, id: UInt64, j: Job): nat {
    match j
    case Taken(o, _) => if o.id.GetOr(0) == id then 1 else 0
    case Refused(id') => if id' == id then 1 else 0
    case Finalised(item) => HeldBy(me, id, item.trade)
    case Releasing(_) => 0
    case Recreating(_, _) => 0
  }

  function JobHolds(me: string, id: UInt64): Job -> nat {
    (j: Job) => JobHeld(me, id, j)
  }

  /** Whether a job is about to add the rest of a sold order. */
  function JobReplaces(id: UInt64): Job -> nat {
    (j: Job) => if j.Recreating? && j.from == id then 1 else 0
  }

  /** How often an order is held: by takes in progress, active trades and final ones awaiting their handler. */
  ghost function Held(n: Node, id: UInt64): nat {
    Sum(TradeHolds(n.account, id), n.trades) + Sum(JobHolds(n.account, id), n.jobs)
  }

  ghost function Replaced(n: Node, id: UInt64): nat {
    Sum(JobReplaces(id), n.jobs)
  }

  predicate TradeShape(me: string, t: TradeState) {
    GetRole(me, t) == Maker ==> t.order.id.Some? && t.order.account == Some(me) && !t.order.locked
  }

  predicate JobShape(me: string, j: Job) {
    match j
    case Taken(o, msg) => o.id.Some? && o.account == Some(me) && !o.locked && msg.takingOrder.Some?
    case Finalised(item) => TradeShape(me, item.trade) && IsFinalised(item.trade)
    case Recreating(o, _) => !o.locked
    case _ => true
  }

  ghost predicate Shapes(n: Node) {
    && (forall i :: 0 <= i < |n.trades| ==> TradeShape(n.account, n.trades[i].trade))
    && (forall i :: 0 <= i < |n.jobs| ==> JobShape(n.account, n.jobs[i]))
  }

  /** What is known of one identifier, given how often it is held and about to be replaced. */
  predicate IdInOrder(n: Node, id: UInt64, held: nat, replaced: nat) {
    && held + replaced <= 1
    && (id in n.orders || held > 0 || replaced > 0 || id in n.lost ==> id < n.nextId)
    && (id in n.orders ==> (n.orders[id].locked <==> held == 1) && id !in n.lost && replaced == 0)
    && (held > 0 ==> id in n.orders || id in n.lost)
  }

  /**
   * Every order is held at most once, by a take in progress, an active trade or
   * a final one awaiting its handler. It is locked exactly while it is held, if
   * it is still there, and a held order is not there any more exactly if it was lost.
   */
  ghost predicate Exclusive(n: Node) {
    Shapes(n) && n.nextId <= TWO_64 && forall id: UInt64 :: IdInOrder(n, id, Held(n, id), Replaced(n, id))
  }

  /** What the user may do: add orders that are not marked as locked. */
  ghost predicate UnlockedAdds(e: Event) {
    e.AddOrder? ==> !e.order.locked
  }

  // ---------------------------------------------------------------------------
  // Steps that hold the same orders as before.

  predicate SameOrders(n: Node, m: Node) {
    m.account == n.account && m.orders == n.orders && m.nextId == n.nextId && m.lost == n.lost
  }

  lemma SameHoldersKeep(n: Node, m: Node)
    requires Exclusive(n) && SameOrders(n, m) && Shapes(m)
    requires forall id: UInt64 :: Held(m, id) == Held(n, id) && Replaced(m, id) == Replaced(n, id)
    ensures Exclusive(m)
  {
    hide Held, Replaced, Shapes;
    forall id: UInt64 ensures IdInOrder(m, id, Held(m, id), Replaced(m, id)) {
      assert IdInOrder(n, id, Held(n, id), Replaced(n, id));
    }
  }

  lemma ReplyKeepsOrder(w: World, me: string, t: TradeState, wallet: set<OutPoint>, rpc: Rpc)
    ensures Reply(w, me, t, wallet, rpc).trade.order == t.order
    ensures Extends(t, Reply(w, me, t, wallet, rpc).trade)
  {
    if UsableSellerData(me, t) {
      ReplyDecreases(w, me, t, wallet, rpc);
    }
  }

  lemma TradeAppended(n: Node, x: Numbered, m: Node, id: UInt64)
    requires m.account == n.account && m.trades == n.trades + [x] && m.jobs == n.jobs
    ensures Held(m, id) == Held(n, id) + HeldBy(n.account, id, x.trade) && Replaced(m, id) == Replaced(n, id)
  {
    hide Sum;
    SumAppend(TradeHolds(n.account, id), n.trades, x);
  }

  lemma TradeChanged(n: Node, i: nat, x: Numbered, m: Node, id: UInt64)
    requires m.account == n.account && i < |n.trades| && m.trades == n.trades[i := x] && m.jobs == n.jobs
    requires x.trade.order == n.trades[i].trade.order
    ensures Held(m, id) == Held(n, id) && Replaced(m, id) == Replaced(n, id)
  {
    hide Sum;
    SumUpdate(TradeHolds(n.account, id), n.trades, i, x);
  }

  /** What starting a trade as the taker does to a node: nothing to orders and jobs, and it adds at most one trade. */
  lemma TakeEffect(w: World, n: Node, o: Order, units: Int64, now: int, rpc: Rpc)
    ensures var (m, t) := (Take(w, n, o, units, now, rpc), NewTrade(o, ToUInt64(units), o.account.GetOr(""), now));
            var r := Reply(w, n.account, t, n.wallet, rpc);
            && SameOrders(n, m) && m.jobs == n.jobs
            && (m.trades == n.trades
                || (m.trades == n.trades + [Numbered(n.nextSerial, r.trade)] && GetRole(n.account, r.trade) == Taker))
  {
    hide HasReply, ReplyLog, CheckOrder, Reply;
    var t := NewTrade(o, ToUInt64(units), o.account.GetOr(""), now);
    ReplyKeepsOrder(w, n.account, t, n.wallet, rpc);
  }

  lemma TakeKeeps(w: World, n: Node, o: Order, units: Int64, now: int, rpc: Rpc)
    requires Exclusive(n)
    ensures Exclusive(Take(w, n, o, units, now, rpc))
  {
    hide Take, Reply, Sum;
    TakeEffect(w, n, o, units, now, rpc);
    var m := Take(w, n, o, units, now, rpc);
    if m.trades != n.trades {
      var x := m.trades[|n.trades|];
      forall id: UInt64 ensures Held(m, id) == Held(n, id) && Replaced(m, id) == Replaced(n, id) {
        TradeAppended(n, x, m, id);
      }
    }
    SameHoldersKeep(n, m);
  }

  /** What a message does to a node: nothing to orders and jobs, and it changes at most the first matching trade. */
  lemma DeliverEffect(w: World, n: Node, msg: Message, rpc: Rpc)
    ensures var (m, i) := (Deliver(w, n, msg, rpc), FindMatch(n.trades, msg, 0));
            && SameOrders(n, m) && m.jobs == n.jobs
            && if i == |n.trades| then m.trades == n.trades
               else
                 var r := Reply(w, n.account, HandleMessage(n.account, n.trades[i].trade, msg), n.wallet, rpc);
                 m.trades == n.trades[i := n.trades[i].(trade := r.trade)]
                 && Extends(n.trades[i].trade, r.trade) && r.trade.order == n.trades[i].trade.order
  {
    hide HasReply, ReplyLog, Reply, HandleMessage;
    var i := FindMatch(n.trades, msg, 0);
    if i < |n.trades| {
      HandleExtends(n.account, n.trades[i].trade, msg);
      ReplyKeepsOrder(w, n.account, HandleMessage(n.account, n.trades[i].trade, msg), n.wallet, rpc);
    }
  }

  lemma DeliverKeeps(w: World, n: Node, msg: Message, rpc: Rpc)
    requires Exclusive(n)
    ensures Exclusive(Deliver(w, n, msg, rpc))
  {
    hide Deliver, Reply, HandleMessage, Sum;
    DeliverEffect(w, n, msg, rpc);
    var m := Deliver(w, n, msg, rpc);
    var i := FindMatch(n.trades, msg, 0);
    if i < |n.trades| {
      forall id: UInt64 ensures Held(m, id) == Held(n, id) && Replaced(m, id) == Replaced(n, id) {
        TradeChanged(n, i, m.trades[i], m, id);
      }
    }
    SameHoldersKeep(n, m);
  }

  lemma UpdatedKeepsOrder(t: TradeState, now: int, c: ChainCheck, limits: Limits)
    ensures Updated(t, now, c, limits).order == t.order && Extends(t, Updated(t, now, c, limits))
  {
    if !(t.state == Pending && t.ourPsbt.None?) {
      UpdateExtends(t, now, c, limits);
    }
  }

  lemma {:induction false} SelectSplits(f: Numbered -> nat, s: seq<Numbered>)
    ensures Sum(f, Select(s, true)) + Sum(f, Select(s, false)) == Sum(f, s)
  {
    if s != [] {
      var k := |s| - 1;
      SelectSplits(f, s[..k]);
      SumAppend(f, Select(s[..k], IsFinalised(s[k].trade)), s[k]);
      assert Select(s, !IsFinalised(s[k].trade)) == Select(s[..k], !IsFinalised(s[k].trade));
      assert Select(s, IsFinalised(s[k].trade)) == Select(s[..k], IsFinalised(s[k].trade)) + [s[k]];
    }
  }

  lemma {:induction false} SelectFrom(s: seq<Numbered>, final: bool)
    ensures forall x :: x in Select(s, final) <==> x in s && IsFinalised(x.trade) == final
  {
    if s != [] {
      var k := |s| - 1;
      SelectFrom(s[..k], final);
      assert s == s[..k] + [s[k]];
    }
  }

  lemma {:induction false} HandleAllIs(items: seq<Numbered>)
    ensures |HandleAll(items)| == |items| && forall i :: 0 <= i < |items| ==> HandleAll(items)[i] == Finalised(items[i])
  {
    if items != [] {
      HandleAllIs(items[..|items| - 1]);
    }
  }

  lemma {:induction false} HandleAllHolds(me: string, items: seq<Numbered>, id: UInt64)
    ensures Sum(JobHolds(me, id), HandleAll(items)) == Sum(TradeHolds(me, id), items)
    ensures Sum(JobReplaces(id), HandleAll(items)) == 0
  {
    if items != [] {
      var k := |items| - 1;
      HandleAllHolds(me, items[..k], id);
      SumAppend(JobHolds(me, id), HandleAll(items[..k]), Finalised(items[k]));
      SumAppend(JobReplaces(id), HandleAll(items[..k]), Finalised(items[k]));
    }
  }

  lemma ArchivedHolds(n: Node, updated: seq<Numbered>, m: Node, id: UInt64)
    requires |updated| == |n.trades| && m.account == n.account
    requires forall i :: 0 <= i < |updated| ==> updated[i].trade.order == n.trades[i].trade.order
    requires m.trades == Select(updated, false) && m.jobs == n.jobs + HandleAll(Select(updated, true))
    ensures Held(m, id) == Held(n, id) && Replaced(m, id) == Replaced(n, id)
  {
    hide Sum, Select, HandleAll;
    var final := Select(updated, true);
    SumSame(TradeHolds(n.account, id), n.trades, updated);
    SelectSplits(TradeHolds(n.account, id), updated);
    HandleAllHolds(n.account, final, id);
    SumConcat(JobHolds(n.account, id), n.jobs, HandleAll(final));
    SumConcat(JobReplaces(id), n.jobs, HandleAll(final));
  }

  lemma UpdateTickKeeps(n: Node, now: int, checks: nat -> ChainCheck, limits: Limits)
    requires Exclusive(n)
    ensures Exclusive(UpdateAndArchive(n, now, checks, limits))
  {
    hide Sum, Select, HandleAll, Held, Replaced, Updated;
    var m := UpdateAndArchive(n, now, checks, limits);
    var updated := UpdateEach(n.trades, now, checks, limits);
    forall i | 0 <= i < |updated|
      ensures updated[i].trade.order == n.trades[i].trade.order
    {
      UpdatedKeepsOrder(n.trades[i].trade, now, checks(i), limits);
    }
    forall id: UInt64 ensures Held(m, id) == Held(n, id) && Replaced(m, id) == Replaced(n, id) {
      ArchivedHolds(n, updated, m, id);
    }
    ArchivedShapes(n, updated, m);
    SameHoldersKeep(n, m);
  }

  lemma ArchivedShapes(n: Node, updated: seq<Numbered>, m: Node)
    requires |updated| == |n.trades| && m.account == n.account && Shapes(n)
    requires forall i :: 0 <= i < |updated| ==> updated[i].trade.order == n.trades[i].trade.order
    requires m.trades == Select(updated, false) && m.jobs == n.jobs + HandleAll(Select(updated, true))
    ensures Shapes(m)
  {
    hide Select, HandleAll;
    var final := Select(updated, true);
    SelectFrom(updated, true);
    SelectFrom(updated, false);
    HandleAllIs(final);
    assert forall x :: x in updated ==> TradeShape(n.account, x.trade) by {
      forall i | 0 <= i < |updated| ensures TradeShape(n.account, updated[i].trade) {
        assert TradeShape(n.account, n.trades[i].trade);
      }
    }
    forall i | 0 <= i < |m.trades| ensures TradeShape(n.account, m.trades[i].trade) {
      assert m.trades[i] in updated;
    }
    forall i | 0 <= i < |m.jobs| ensures JobShape(n.account, m.jobs[i]) {
      if i >= |n.jobs| {
        assert final[i - |n.jobs|] in updated && m.jobs[i] == Finalised(final[i - |n.jobs|]);
      }
    }
  }

  // ---------------------------------------------------------------------------
  // Steps on orders and jobs.

  /** A step that changes what is known of one identifier only. */
  lemma OneIdChanges(n: Node, m: Node, id: UInt64)
    requires Exclusive(n) && Shapes(m) && n.nextId <= m.nextId <= TWO_64
    requires forall x: UInt64 :: x != id ==>
               && (x in m.orders <==> x in n.orders) && (x in n.orders ==> m.orders[x].locked == n.orders[x].locked)
               && (x in m.lost <==> x in n.lost)
    requires forall x: UInt64 :: x != id ==> Held(m, x) == Held(n, x) && Replaced(m, x) == Replaced(n, x)
    requires IdInOrder(m, id, Held(m, id), Replaced(m, id))
    ensures Exclusive(m)
  {
    hide Held, Replaced, Shapes;
    forall x: UInt64 ensures IdInOrder(m, x, Held(m, x), Replaced(m, x)) {
      assert IdInOrder(n, x, Held(n, x), Replaced(n, x));
    }
  }

  lemma PostKeeps(n: Node, o: Order)
    requires Exclusive(n) && !o.locked
    ensures Exclusive(Post(n, o))
  {
    var m := Post(n, o);
    if n.nextId < TWO_64 {
      hide Sum;
      assert IdInOrder(n, n.nextId, Held(n, n.nextId), Replaced(n, n.nextId));
      OneIdChanges(n, m, n.nextId);
    }
  }

  lemma DropKeeps(n: Node, ids: set<UInt64>)
    requires Exclusive(n)
    ensures Exclusive(Drop(n, ids))
  {
    hide Sum;
    var m := Drop(n, ids);
    forall x: UInt64 ensures IdInOrder(m, x, Held(m, x), Replaced(m, x)) {
      assert IdInOrder(n, x, Held(n, x), Replaced(n, x));
    }
  }

  /** What replacing a job by another list of them does to the holders. */
  lemma JobsReplaced(n: Node, i: nat, next: seq<Job>, m: Node, id: UInt64)
    requires i < |n.jobs| && m.account == n.account && m.trades == n.trades && |next| <= 1
    requires m.jobs == n.jobs[..i] + next + n.jobs[i + 1..]
    ensures Held(m, id) + JobHeld(n.account, id, n.jobs[i])
            == Held(n, id) + if next == [] then 0 else JobHeld(n.account, id, next[0])
    ensures Replaced(m, id) + JobReplaces(id)(n.jobs[i])
            == Replaced(n, id) + if next == [] then 0 else JobReplaces(id)(next[0])
    ensures JobHeld(n.account, id, n.jobs[i]) <= Held(n, id) && JobReplaces(id)(n.jobs[i]) <= Replaced(n, id)
  {
    SumReplace(JobHolds(n.account, id), n.jobs, i, next);
    SumReplace(JobReplaces(id), n.jobs, i, next);
    SumIncludes(JobHolds(n.account, id), n.jobs, i);
    SumIncludes(JobReplaces(id), n.jobs, i);
    if next != [] {
      SumOne(JobHolds(n.account, id), next[0]);
      SumOne(JobReplaces(id), next[0]);
      assert next == [next[0]];
    }
  }

  lemma JobShapesReplaced(n: Node, i: nat, next: seq<Job>, m: Node)
    requires i < |n.jobs| && m.account == n.account && m.trades == n.trades && |next| <= 1 && Shapes(n)
    requires m.jobs == n.jobs[..i] + next + n.jobs[i + 1..]
    requires forall j :: 0 <= j < |next| ==> JobShape(n.account, next[j])
    ensures Shapes(m)
  {
  }

  /** The list of jobs after job i has been replaced by at most one other. */
  lemma JobLists(n: Node, i: nat, j: Job)
    requires i < |n.jobs|
    ensures Without(n.jobs, i) == n.jobs[..i] + [] + n.jobs[i + 1..]
    ensures n.jobs[i := j] == n.jobs[..i] + [j] + n.jobs[i + 1..]
  {
  }

  lemma StartTakingKeeps(n: Node, msg: Message)
    requires Exclusive(n)
    ensures Exclusive(StartTaking(n, msg))
  {
    var m := StartTaking(n, msg);
    if m != n {
      var id := msg.takingOrder.value.id;
      var j := Taken(Copy(n.account, id, n.orders[id]), msg);
      hide Sum;
      forall x: UInt64
        ensures Held(m, x) == Held(n, x) + (if x == id then 1 else 0) && Replaced(m, x) == Replaced(n, x)
      {
        SumAppend(JobHolds(n.account, x), n.jobs, j);
        SumAppend(JobReplaces(x), n.jobs, j);
      }
      hide Held, Replaced;
      assert IdInOrder(n, id, Held(n, id), Replaced(n, id));
      OneIdChanges(n, m, id);
    }
  }

  lemma OrderTakenKeeps(n: Node, i: nat, now: int)
    requires Exclusive(n) && i < |n.jobs| && n.jobs[i].Taken? && n.jobs[i].msg.takingOrder.Some?
    ensures Exclusive(OrderTaken(n, i, now))
  {
    var m := OrderTaken(n, i, now);
    var o := n.jobs[i].order;
    ShapeOf(n, i);
    JobLists(n, i, Refused(o.id.GetOr(0)));
    if m.trades == n.trades {
      hide OrderTaken, Exclusive;
      ReplaceKeeps(n, i, [Refused(o.id.GetOr(0))], m);
    } else {
      var x := m.trades[|n.trades|];
      assert m.trades == n.trades + [x] && GetRole(n.account, x.trade) == Maker && x.trade.order == o;
      hide OrderTaken, Exclusive;
      TradeForJob(n, i, x, m);
    }
  }

  /** A job gives way to one that holds the same, or to none if it holds nothing. */
  lemma ReplaceKeeps(n: Node, i: nat, next: seq<Job>, m: Node)
    requires Exclusive(n) && i < |n.jobs| && SameOrders(n, m) && m.trades == n.trades && |next| <= 1
    requires m.jobs == n.jobs[..i] + next + n.jobs[i + 1..] && !n.jobs[i].Recreating?
    requires next != [] ==> JobShape(n.account, next[0]) && !next[0].Recreating?
    requires forall x: UInt64 :: JobHeld(n.account, x, n.jobs[i])
                                 == if next == [] then 0 else JobHeld(n.account, x, next[0])
    ensures Exclusive(m)
  {
    hide Held, Replaced;
    JobShapesReplaced(n, i, next, m);
    forall x: UInt64 ensures Held(m, x) == Held(n, x) && Replaced(m, x) == Replaced(n, x) {
      JobsReplaced(n, i, next, m, x);
    }
    SameHoldersKeep(n, m);
  }

  /** A job gives way to a new trade that holds the same. */
  lemma TradeForJob(n: Node, i: nat, t: Numbered, m: Node)
    requires Exclusive(n) && i < |n.jobs| && SameOrders(n, m) && m.trades == n.trades + [t]
    requires m.jobs == Without(n.jobs, i) && !n.jobs[i].Recreating? && TradeShape(n.account, t.trade)
    requires forall x: UInt64 :: JobHeld(n.account, x, n.jobs[i]) == HeldBy(n.account, x, t.trade)
    ensures Exclusive(m)
  {
    hide Held, Replaced;
    var p := m.(trades := n.trades);
    JobLists(n, i, n.jobs[i]);
    JobShapesReplaced(n, i, [], p);
    assert Shapes(m);
    forall x: UInt64 ensures Held(m, x) == Held(n, x) && Replaced(m, x) == Replaced(n, x) {
      JobsReplaced(n, i, [], p, x);
      TradeAppended(p, t, m, x);
    }
    SameHoldersKeep(n, m);
  }

  /** Unlocking fails its CHECK exactly if the order was lost while it was held. */
  lemma UnlockFailsIfLost(n: Node, i: nat, id: UInt64)
    requires Exclusive(n) && i < |n.jobs| && JobHeld(n.account, id, n.jobs[i]) == 1
    ensures CanUnlock(n.orders, id) <==> id !in n.lost
  {
    SumIncludes(JobHolds(n.account, id), n.jobs, i);
    assert IdInOrder(n, id, Held(n, id), Replaced(n, id));
  }

  lemma UnlockForKeeps(n: Node, i: nat, id: UInt64, next: seq<Job>)
    requires Exclusive(n) && i < |n.jobs| && |next| <= 1 && (next != [] ==> next[0].Releasing?)
    requires forall x: UInt64 :: JobHeld(n.account, x, n.jobs[i]) == if x == id then 1 else 0
    requires !n.jobs[i].Recreating?
    ensures Exclusive(UnlockFor(n, i, id, next))
  {
    hide Held, Replaced, Shapes, JobHeld;
    var m := UnlockFor(n, i, id, next);
    if CanUnlock(n.orders, id) {
      assert forall j :: 0 <= j < |next| ==> JobShape(n.account, next[j]);
      JobShapesReplaced(n, i, next, m);
      UnlockedHolds(n, i, id, next, m);
      assert IdInOrder(n, id, Held(n, id), Replaced(n, id));
      OneIdChanges(n, m, id);
    } else {
      CrashedKeeps(n);
    }
  }

  lemma UnlockedHolds(n: Node, i: nat, id: UInt64, next: seq<Job>, m: Node)
    requires i < |n.jobs| && |next| <= 1 && (next != [] ==> next[0].Releasing?) && !n.jobs[i].Recreating?
    requires forall x: UInt64 :: JobHeld(n.account, x, n.jobs[i]) == if x == id then 1 else 0
    requires m.account == n.account && m.trades == n.trades && m.jobs == n.jobs[..i] + next + n.jobs[i + 1..]
    ensures forall x: UInt64 :: Held(m, x) + (if x == id then 1 else 0) == Held(n, x)
                                && Replaced(m, x) == Replaced(n, x)
    ensures Held(n, id) >= 1
  {
    hide Held, Replaced;
    forall x: UInt64
      ensures Held(m, x) + (if x == id then 1 else 0) == Held(n, x) && Replaced(m, x) == Replaced(n, x)
    {
      JobsReplaced(n, i, next, m, x);
    }
  }

  lemma CrashedKeeps(n: Node)
    requires Exclusive(n)
    ensures Exclusive(n.(crashed := true))
  {
    hide Sum;
    var m := n.(crashed := true);
    assert forall x: UInt64 :: Held(m, x) == Held(n, x) && Replaced(m, x) == Replaced(n, x);
    SameHoldersKeep(n, m);
  }

  /** What is left to do for a finished trade. */
  function NextJobs(me: string, t: TradeState): seq<Job> {
    if t.state != Success then [Releasing(t)]
    else if GetRole(me, t) == Maker && Rest(t).Some? then [Recreating(Rest(t).value, t.order.id.GetOr(0))]
    else []
  }

  /** Handling a finished trade leaves trades, archive and coins alone, and passes the trade on. */
  predicate PassesOn(n: Node, i: nat, m: Node)
    requires i < |n.jobs| && n.jobs[i].Finalised?
  {
    && m.account == n.account && m.trades == n.trades && m.archive == n.archive && m.wallet == n.wallet
    && m.nextSerial == n.nextSerial && m.crashed == n.crashed
    && m.jobs == n.jobs[..i] + NextJobs(n.account, n.jobs[i].item.trade) + n.jobs[i + 1..]
    && m.log == n.log + [Handled(n.jobs[i].item.serial, n.jobs[i].item.trade)]
  }

  lemma HandleIs(n: Node, i: nat)
    requires i < |n.jobs| && n.jobs[i].Finalised?
    ensures var (m, t) := (Handle(n, i), n.jobs[i].item.trade);
            if t.state != Success && GetRole(n.account, t) == Maker && !CanUnlock(n.orders, t.order.id.GetOr(0))
            then m == n.(crashed := true)
            else PassesOn(n, i, m)
  {
    hide GetRole, Rest, CanUnlock, Unlocked;
    var t := n.jobs[i].item.trade;
    var next := NextJobs(n.account, t);
    if t.state == Success || GetRole(n.account, t) == Taker {
      JobLists(n, i, if next == [] then Releasing(t) else next[0]);
    }
  }

  lemma HandleKeeps(n: Node, i: nat)
    requires Exclusive(n) && i < |n.jobs| && n.jobs[i].Finalised?
    ensures Exclusive(Handle(n, i))
  {
    var Numbered(serial, t) := n.jobs[i].item;
    var id := t.order.id.GetOr(0);
    assert JobShape(n.account, n.jobs[i]);
    if GetRole(n.account, t) == Taker {
      TakerHandleKeeps(n, i);
    } else if t.state == Success {
      SaleKeeps(n, i);
    } else {
      var n1 := if CanUnlock(n.orders, id) then n.(log := n.log + [Handled(serial, t)]) else n.(crashed := true);
      hide Sum;
      assert forall x: UInt64 :: Held(n1, x) == Held(n, x) && Replaced(n1, x) == Replaced(n, x);
      SameHoldersKeep(n, n1);
      hide Held, Replaced;
      if CanUnlock(n.orders, id) {
        UnlockForKeeps(n1, i, id, [Releasing(t)]);
      }
    }
  }

  lemma TakerHandleKeeps(n: Node, i: nat)
    requires Exclusive(n) && i < |n.jobs| && n.jobs[i].Finalised? && GetRole(n.account, n.jobs[i].item.trade) == Taker
    ensures Exclusive(Handle(n, i))
  {
    hide Exclusive;
    var t := n.jobs[i].item.trade;
    JobLists(n, i, Releasing(t));
    ReplaceKeeps(n, i, if t.state == Success then [] else [Releasing(t)], Handle(n, i));
  }

  lemma SaleKeeps(n: Node, i: nat)
    requires Exclusive(n) && i < |n.jobs| && n.jobs[i].Finalised?
    requires n.jobs[i].item.trade.state == Success && GetRole(n.account, n.jobs[i].item.trade) == Maker
    ensures Exclusive(Handle(n, i))
  {
    hide Held, Replaced;
    var t := n.jobs[i].item.trade;
    var id := t.order.id.GetOr(0);
    var m := Handle(n, i);
    assert JobShape(n.account, n.jobs[i]);
    var next := if Rest(t).Some? then [Recreating(Rest(t).value, id)] else [];
    JobLists(n, i, if Rest(t).Some? then next[0] else Refused(id));
    assert m.jobs == n.jobs[..i] + next + n.jobs[i + 1..] && m.trades == n.trades && m.orders == n.orders - {id};
    assert m.account == n.account && m.nextId == n.nextId && m.lost == n.lost;
    assert next != [] ==> JobShape(n.account, next[0]);
    JobShapesReplaced(n, i, next, m);
    forall x: UInt64
      ensures Held(m, x) + (if x == id then 1 else 0) == Held(n, x)
      ensures Replaced(m, x) == Replaced(n, x) + (if x == id && next != [] then 1 else 0)
    {
      JobsReplaced(n, i, next, m, x);
    }
    assert IdInOrder(n, id, Held(n, id), Replaced(n, id));
    OneIdChanges(n, m, id);
  }

  lemma ExclusiveWithout(n: Node, i: nat)
    requires Exclusive(n) && i < |n.jobs| && n.jobs[i].Recreating?
    ensures Exclusive(n.(jobs := Without(n.jobs, i)))
  {
    hide Held, Replaced;
    var n1 := n.(jobs := Without(n.jobs, i));
    var from := n.jobs[i].from;
    JobLists(n, i, Refused(0));
    JobShapesReplaced(n, i, [], n1);
    forall x: UInt64
      ensures Held(n1, x) == Held(n, x)
      ensures Replaced(n1, x) + (if x == from then 1 else 0) == Replaced(n, x)
    {
      JobsReplaced(n, i, [], n1, x);
    }
    assert IdInOrder(n, from, Held(n, from), Replaced(n, from));
    OneIdChanges(n, n1, from);
  }

  lemma RecreateKeeps(n: Node, i: nat, valid: bool)
    requires Exclusive(n) && i < |n.jobs| && n.jobs[i].Recreating?
    ensures Exclusive(Recreate(n, i, valid))
  {
    hide Sum;
    var o := n.jobs[i].order;
    assert JobShape(n.account, n.jobs[i]);
    var n1 := n.(jobs := Without(n.jobs, i));
    var (p, m) := (Post(n1, o), Recreate(n, i, valid));
    ExclusiveWithout(n, i);
    PostKeeps(n1, o);
    if m != n1 {
      assert forall x: UInt64 :: Held(m, x) == Held(p, x) && Replaced(m, x) == Replaced(p, x);
      assert Shapes(m) by { assert Shapes(p) by { ShapesOf(p); } }
      SameHoldersKeep(p, m);
    }
  }

  lemma ShapesOf(n: Node)
    requires Exclusive(n)
    ensures Shapes(n)
  {
  }

  lemma ReleaseKeeps(n: Node, i: nat, m: Node)
    requires Exclusive(n) && i < |n.jobs| && n.jobs[i].Releasing?
    requires SameOrders(n, m) && m.trades == n.trades && m.jobs == Without(n.jobs, i)
    ensures Exclusive(m)
  {
    hide Exclusive;
    JobLists(n, i, n.jobs[i]);
    ReplaceKeeps(n, i, [], m);
  }

  lemma ContinueKeeps(n: Node, i: nat, now: int, valid: bool)
    requires Exclusive(n) && i < |n.jobs|
    ensures Exclusive(ContinueJob(n, i, now, valid))
  {
    hide Exclusive;
    assert JobShape(n.account, n.jobs[i]) by { ShapeOf(n, i); }
    match n.jobs[i]
    case Taken(_, _) => OrderTakenKeeps(n, i, now);
    case Refused(id) => UnlockForKeeps(n, i, id, []);
    case Finalised(_) => HandleKeeps(n, i);
    case Releasing(_) => ReleaseKeeps(n, i, ContinueJob(n, i, now, valid));
    case Recreating(_, _) => RecreateKeeps(n, i, valid);
  }

  lemma ShapeOf(n: Node, i: nat)
    requires Exclusive(n) && i < |n.jobs|
    ensures JobShape(n.account, n.jobs[i])
  {
  }

  lemma StepKeepsExclusive(w: World, n: Node, e: Event)
    requires Exclusive(n) && UnlockedAdds(e)
    ensures Exclusive(Step(w, n, e))
  {
    hide Exclusive;
    if !n.crashed {
      match e
      case AddOrder(o) => PostKeeps(n, o);
      case CancelOrders(ids) => DropKeeps(n, ids);
      case TakeOrder(o, units, now, rpc) => TakeKeeps(w, n, o, units, now, rpc);
      case TakingMessage(msg) => StartTakingKeeps(n, msg);
      case AnyMessage(msg, rpc) => DeliverKeeps(w, n, msg, rpc);
      case UpdateTick(now, checks, limits) => UpdateTickKeeps(n, now, checks, limits);
      case Continue(i, now, valid) => if i < |n.jobs| { ContinueKeeps(n, i, now, valid); }
    }
  }

  /** Orders are used exclusively in every run, whatever the interleaving and whatever messages arrive. */
  lemma {:induction false} OrdersAreExclusive(w: World, account: string, wallet: set<OutPoint>, events: seq<Event>)
    requires forall e :: e in events ==> UnlockedAdds(e)
    ensures Exclusive(Run(w, NewNode(account, wallet), events))
  {
    if events != [] {
      var k := |events| - 1;
      OrdersAreExclusive(w, account, wallet, events[..k]);
      hide Exclusive, Step;
      StepKeepsExclusive(w, Run(w, NewNode(account, wallet), events[..k]), events[k]);
    }
  }

  /** The order of an active trade of ours is locked if it is still there, and never given away again. */
  lemma ActiveOrderIsLocked(n: Node, i: nat)
    requires Exclusive(n) && i < |n.trades| && GetRole(n.account, n.trades[i].trade) == Maker
    ensures var id := n.trades[i].trade.order.id.GetOr(0);
            && id < n.nextId && (id in n.orders ==> n.orders[id].locked) && (id in n.orders <==> id !in n.lost)
            && Held(n, id) == 1
  {
    hide Sum;
    var id := n.trades[i].trade.order.id.GetOr(0);
    SumIncludes(TradeHolds(n.account, id), n.trades, i);
    assert IdInOrder(n, id, Held(n, id), Replaced(n, id));
  }

  /** No two active trades are for the same order of ours. */
  lemma ActiveTradesDiffer(n: Node, i: nat, j: nat)
    requires Exclusive(n) && i < j < |n.trades|
    requires GetRole(n.account, n.trades[i].trade) == Maker && GetRole(n.account, n.trades[j].trade) == Maker
    ensures n.trades[i].trade.order.id.GetOr(0) != n.trades[j].trade.order.id.GetOr(0)
  {
    hide Sum;
    var id := n.trades[i].trade.order.id.GetOr(0);
    assert IdInOrder(n, id, Held(n, id), Replaced(n, id));
    SumIncludesTwo(TradeHolds(n.account, id), n.trades, i, j);
  }

  /** If no locked order was ever cancelled or dropped, the locked orders are exactly the ones held, once each. */
  lemma LockedMeansHeldOnce(n: Node, id: UInt64)
    requires Exclusive(n) && n.lost == {}
    ensures Held(n, id) == if CanUnlock(n.orders, id) then 1 else 0
  {
    assert IdInOrder(n, id, Held(n, id), Replaced(n, id));
  }
}
