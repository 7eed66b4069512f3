/**
 * The manager of a node's trades, as it updates its lists in place. What it
 * does is a run of the node's steps, so what holds of all runs holds of it.
 */
module Managers {
  import opened Amounts
  import opened Chain
  import opened Nodes
  import opened NodeArchive
  import opened NodeOrders
  import opened NodeTrades
  import opened Orders
  import opened OwnOrders
  import opened Psbts
  import opened TradeRules
  import opened TradeRuns
  import opened Trades
  import opened Wrappers

  function Stripped(s: seq<Numbered>): (r: seq<TradeState>)
    ensures |r| == |s| && forall i :: 0 <= i < |s| ==> r[i] == s[i].trade
  {
    seq(|s|, i requires 0 <= i < |s| => s[i].trade)
  }

  function Infos(s: seq<Archived>): (r: seq<PublicTrade>)
    ensures |r| == |s| && forall i :: 0 <= i < |s| ==> r[i] == s[i].info
  {
    seq(|s|, i requires 0 <= i < |s| => s[i].info)
  }

  lemma RunOneMore(w: World, n: Node, events: seq<Event>, e: Event)
    ensures Run(w, n, events + [e]) == Step(w, Run(w, n, events), e)
    ensures LawfulRun(w, n, events) && LawfulStep(w, Run(w, n, events), e) ==> LawfulRun(w, n, events + [e])
  {
    assert (events + [e])[..|events + [e]| - 1] == events;
    hide Step, LawfulStep;
  }

  /** What a step has sent: the message of its one new entry for a reply, if any. */
  predicate Sends(log: seq<Entry>, later: seq<Entry>, reply: Option<Message>) {
    && log <= later
    && (reply.Some? ==> exists k :: |log| <= k < |later| && later[k].Replied? && later[k].msg == reply.value)
    && (reply.None? ==> forall k :: |log| <= k < |later| ==> !later[k].Replied?)
  }

  /** Everything but trades, wallet and record is as before. */
  predicate SameElse(n: Node, m: Node) {
    m.account == n.account && m.orders == n.orders && m.nextId == n.nextId && m.archive == n.archive && m.jobs == n.jobs
  }

  lemma TakeCases(w: World, n: Node, o: Order, units: Int64, now: int, rpc: Rpc, t: TradeState, r: Result, msg: Message)
    requires CheckOrder(o, units) && o.account.GetOr("") != n.account && !n.crashed
    requires t == NewTrade(o, ToUInt64(units), o.account.GetOr(""), now)
             && r == HasReply(w, n.account, t, n.wallet, rpc)
    requires msg == (if r.outcome.Sent? then r.outcome.msg else BasicMessage(t))
                      .(takingOrder := Some(TakingOrder(o.id.GetOr(0), t.units)))
    ensures var m := Take(w, n, o, units, now, rpc);
            && SameElse(n, m) && (m.crashed <==> r.outcome.Died?)
            && (!r.outcome.Died? ==> m.wallet == r.locked)
            && if r.outcome.Died? || r.outcome.Threw? then m.trades == n.trades && Sends(n.log, m.log, None)
               else m.trades == n.trades + [Numbered(n.nextSerial, r.trade)] && Sends(n.log, m.log, Some(msg))
  {
    hide HasReply;
    var m := Take(w, n, o, units, now, rpc);
    if !r.outcome.Died? && !r.outcome.Threw? {
      var entries := ReplyLog(r.(outcome := Sent(msg)), rpc);
      assert Replied(r.trade, msg) in entries;
      var k :| 0 <= k < |entries| && entries[k] == Replied(r.trade, msg);
      assert m.log[|n.log| + k] == entries[k];
    }
  }

  lemma TakeRefused(w: World, n: Node, o: Order, units: Int64, now: int, rpc: Rpc)
    requires !n.crashed
    ensures !CheckOrder(o, units) || o.account.GetOr("") == n.account ==>
              Take(w, n, o, units, now, rpc) == n && Sends(n.log, n.log, None)
  {
    hide CheckOrder, Reply;
  }

  /** The orders that a refresh drops. */
  ghost function Dropped(orders: OrderMap, valid: Order -> bool): set<UInt64> {
    set id | id in orders && !valid(orders[id])
  }

  /** Dropping orders, spelt out. */
  lemma DropCases(n: Node, ids: set<UInt64>)
    ensures var m := Drop(n, ids);
            && m.orders == n.orders - ids && m.account == n.account && m.nextId == n.nextId && m.trades == n.trades
            && m.archive == n.archive && m.wallet == n.wallet && m.jobs == n.jobs && m.log == n.log
            && m.crashed == n.crashed
  {
  }

  lemma DeliverCases(w: World, n: Node, msg: Message, rpc: Rpc, i: nat, t: TradeState, r: Result,
                     reply: Option<Message>)
    requires i == FindMatch(n.trades, msg, 0) < |n.trades| && !n.crashed
    requires t == HandleMessage(n.account, n.trades[i].trade, msg) && UsableSellerData(n.account, t)
    requires r == HasReply(w, n.account, t, n.wallet, rpc)
    requires reply == if r.outcome.Sent? then Some(r.outcome.msg) else None
    ensures var m := Deliver(w, n, msg, rpc);
            && SameElse(n, m) && (m.crashed <==> r.outcome.Died?) && m.wallet == r.locked
            && m.trades == n.trades[i := n.trades[i].(trade := r.trade)] && Sends(n.log, m.log, reply)
  {
    hide HasReply, HandleMessage;
    var m := Deliver(w, n, msg, rpc);
    var entries := ReplyLog(r, rpc);
    if r.outcome.Sent? {
      assert Replied(r.trade, r.outcome.msg) in entries;
      var k :| 0 <= k < |entries| && entries[k] == Replied(r.trade, r.outcome.msg);
      assert m.log[|n.log| + 1 + k] == entries[k];
    }
  }

  lemma UnmatchedCases(w: World, n: Node, msg: Message, rpc: Rpc)
    requires FindMatch(n.trades, msg, 0) == |n.trades|
    ensures var m := Deliver(w, n, msg, rpc);
            SameElse(n, m) && m.crashed == n.crashed && m.wallet == n.wallet && m.trades == n.trades
                && Sends(n.log, m.log, None)
  {
  }

  lemma DroppedIs(orders: OrderMap, valid: Order -> bool)
    ensures Refreshed(orders, valid) == orders - Dropped(orders, valid)
  {
  }

  lemma StartTakingCases(n: Node, msg: Message)
    requires msg.takingOrder.Some?
    ensures var (m, id) := (StartTaking(n, msg), msg.takingOrder.value.id);
            if !CanLock(n.orders, id) then m == n
            else
              && m == n.(orders := Locked(n.orders, id), jobs := m.jobs)
              && m.jobs == n.jobs + [Taken(Copy(n.account, id, n.orders[id]), msg)]
  {
  }

  lemma OrderTakenCases(n: Node, i: nat, now: int)
    requires i < |n.jobs| && n.jobs[i].Taken? && n.jobs[i].msg.takingOrder.Some?
    ensures var (m, Taken(o, msg)) := (ContinueJob(n, i, now, true), n.jobs[i]);
            var units := ToInt64(msg.takingOrder.value.units);
            if !CheckOrder(o, units) || msg.counterparty == n.account
            then m == n.(jobs := n.jobs[i := Refused(o.id.GetOr(0))])
            else
              && m.trades == n.trades + [Numbered(n.nextSerial, NewTrade(o, ToUInt64(units), msg.counterparty, now))]
              && m.orders == n.orders && m.nextId == n.nextId && m.archive == n.archive && m.account == n.account
              && m.jobs == Without(n.jobs, i) && m.log == n.log && m.wallet == n.wallet && m.crashed == n.crashed
  {
    hide CheckOrder;
  }

  lemma RefusedCases(n: Node, i: nat, now: int)
    requires i < |n.jobs| && n.jobs[i].Refused? && !n.crashed
    ensures var (m, id) := (ContinueJob(n, i, now, true), n.jobs[i].id);
            if CanUnlock(n.orders, id) then m == n.(orders := Unlocked(n.orders, id), jobs := Without(n.jobs, i))
            else m.crashed && m.jobs == n.jobs
  {
    hide CanUnlock, Unlocked;
    assert n.jobs[..i] + [] + n.jobs[i + 1..] == Without(n.jobs, i);
  }

  lemma ArchiveCases(n: Node, now: int, checks: nat -> ChainCheck, limits: Limits)
    ensures var (m, updated) := (UpdateAndArchive(n, now, checks, limits), UpdateEach(n.trades, now, checks, limits));
            && m.orders == n.orders && m.nextId == n.nextId && m.account == n.account && m.wallet == n.wallet
            && m.log == n.log && m.crashed == n.crashed && m.trades == Select(updated, false)
            && m.archive == n.archive + ArchiveAll(n.account, Select(updated, true))
            && |m.jobs| == |n.jobs| + |Select(updated, true)| && n.jobs <= m.jobs
            && forall k :: 0 <= k < |Select(updated, true)|
                ==> m.jobs[|n.jobs| + k] == Finalised(Select(updated, true)[k])
  {
    HandleAllIs(Select(UpdateEach(n.trades, now, checks, limits), true));
    hide UpdateEach, Select, ArchiveAll, HandleAll;
  }

  lemma SplitNone(me: string, s: seq<Numbered>)
    ensures Stripped(Select(s[..0], false)) == [] && Stripped(Select(s[..0], true)) == []
    ensures Infos(ArchiveAll(me, Select(s[..0], true))) == []
  {
  }

  /** One more trade is told to be final or not. */
  lemma SplitOneMore(me: string, s: seq<Numbered>, k: nat)
    requires k < |s|
    ensures var (t, final) := (s[k].trade, IsFinalised(s[k].trade));
            && Stripped(Select(s[..k + 1], final)) == Stripped(Select(s[..k], final)) + [t]
            && Stripped(Select(s[..k + 1], !final)) == Stripped(Select(s[..k], !final))
            && Infos(ArchiveAll(me, Select(s[..k + 1], true)))
               == Infos(ArchiveAll(me, Select(s[..k], true))) + if final then [GetPublicInfo(me, t)] else []
  {
    hide Select, ArchiveAll, Stripped, Infos, GetPublicInfo, IsFinalised;
    var final := Select(s[..k], true);
    SelectOneMore(s, k, true);
    SelectOneMore(s, k, false);
    ArchiveOneMore(me, final, s[k]);
    Appended(Select(s[..k], IsFinalised(s[k].trade)), s[k], ArchiveAll(me, final),
             Archived(s[k].serial, GetPublicInfo(me, s[k].trade)));
  }

  lemma SelectOneMore(s: seq<Numbered>, k: nat, final: bool)
    requires k < |s|
    ensures Select(s[..k + 1], final)
            == if IsFinalised(s[k].trade) == final then Select(s[..k], final) + [s[k]] else Select(s[..k], final)
  {
    hide IsFinalised;
    assert s[..k + 1][..k] == s[..k];
  }

  lemma Appended(s: seq<Numbered>, x: Numbered, a: seq<Archived>, y: Archived)
    ensures Stripped(s + [x]) == Stripped(s) + [x.trade] && Infos(a + [y]) == Infos(a) + [y.info]
  {
  }

  /** Nothing but orders, jobs and record changes when a trade is handled. */
  predicate OnlyOrders(n: Node, m: Node) {
    m.account == n.account && m.trades == n.trades && m.archive == n.archive && m.wallet == n.wallet
  }

  lemma HandleFailureCases(n: Node, i: nat, now: int)
    requires i < |n.jobs| && n.jobs[i].Finalised? && n.jobs[i].item.trade.state != Success && !n.crashed
    ensures var (m, t) := (ContinueJob(n, i, now, true), n.jobs[i].item.trade);
            var id := t.order.id.GetOr(0);
            && OnlyOrders(n, m) && m.nextId == n.nextId
            && if GetRole(n.account, t) == Maker && !CanUnlock(n.orders, id) then m.crashed
               else
                 && !m.crashed && m.jobs == n.jobs[i := Releasing(t)]
                 && m.orders == if GetRole(n.account, t) == Maker then Unlocked(n.orders, id) else n.orders
  {
    hide CanUnlock, Unlocked, GetRole;
    assert n.jobs[..i] + [Releasing(n.jobs[i].item.trade)] + n.jobs[i + 1..]
        == n.jobs[i := Releasing(n.jobs[i].item.trade)];
  }

  lemma HandleSuccessCases(n: Node, i: nat, now: int)
    requires i < |n.jobs| && n.jobs[i].Finalised? && n.jobs[i].item.trade.state == Success && !n.crashed
    ensures var (m, t) := (ContinueJob(n, i, now, true), n.jobs[i].item.trade);
            var id := t.order.id.GetOr(0);
            && OnlyOrders(n, m) && m.nextId == n.nextId && !m.crashed
            && m.orders == (if GetRole(n.account, t) == Maker then n.orders - {id} else n.orders)
            && m.jobs == if GetRole(n.account, t) == Maker && Rest(t).Some?
                         then n.jobs[i := Recreating(Rest(t).value, id)] else Without(n.jobs, i)
  {
    hide Rest, GetRole;
  }

  lemma ReleaseCases(n: Node, i: nat, now: int)
    requires i < |n.jobs| && n.jobs[i].Releasing? && !n.crashed
    ensures var m := ContinueJob(n, i, now, true);
            && m.account == n.account && m.trades == n.trades && m.archive == n.archive && m.orders == n.orders
            && m.nextId == n.nextId && !m.crashed && m.jobs == Without(n.jobs, i)
            && m.wallet == n.wallet - ReleaseSet(n.account, n.jobs[i].trade)
  {
    hide ReleaseSet;
  }

  lemma RecreateCases(n: Node, i: nat, now: int, valid: bool)
    requires i < |n.jobs| && n.jobs[i].Recreating? && !n.crashed && n.nextId < TWO_64
    ensures var m := ContinueJob(n, i, now, valid);
            && OnlyOrders(n, m) && !m.crashed && m.jobs == Without(n.jobs, i)
            && m.nextId == (if valid then n.nextId + 1 else n.nextId)
            && m.orders == if valid then n.orders[n.nextId := Stored(n.jobs[i].order)] else n.orders
  {
  }

  /** Whether a message may take an order that has just been locked for it. */
  predicate MayTake(account: string, o: Order, msg: Message)
    requires msg.takingOrder.Some?
  {
    CheckOrder(o, ToInt64(msg.takingOrder.value.units)) && msg.counterparty != account
  }

  /** Whether a message takes an order of ours, with success. */
  predicate Takes(account: string, orders: OrderMap, msg: Message)
    requires msg.takingOrder.Some?
  {
    var id := msg.takingOrder.value.id;
    CanLock(orders, id) && MayTake(account, Copy(account, id, orders[id]), msg)
  }

  /** One more trade, and nothing new in locked coins and record. */
  ghost predicate AddsTrade(n: Node, m: Node, t: TradeState) {
    && m.account == n.account && m.wallet == n.wallet && m.log == n.log && !m.crashed
    && Stripped(m.trades) == Stripped(n.trades) + [t]
  }

  /** The own orders after a message, if no CHECK fails: one locked for a new trade, or made available again. */
  function AfterTaking(account: string, valid: Order -> bool, orders: OrderMap, msg: Message): Option<OrderMap> {
    if msg.takingOrder.None? || !CanLock(orders, msg.takingOrder.value.id) then Some(orders)
    else
      var id := msg.takingOrder.value.id;
      var locked := Refreshed(Locked(orders, id), valid);
      if MayTake(account, Copy(account, id, orders[id]), msg) then Some(locked)
      else if !CanUnlock(locked, id) then None
      else Some(Refreshed(Unlocked(locked, id), valid))
  }

  /** A refused take leaves no trace in the orders: they are as after a refresh. */
  lemma RefusalIsUndone(account: string, valid: Order -> bool, orders: OrderMap, msg: Message)
    requires msg.takingOrder.Some? && CanLock(orders, msg.takingOrder.value.id)
    requires !MayTake(account, Copy(account, msg.takingOrder.value.id, orders[msg.takingOrder.value.id]), msg)
    requires AfterTaking(account, valid, orders, msg).Some?
    ensures AfterTaking(account, valid, orders, msg).value == Refreshed(orders, valid)
  {
    hide CheckOrder;
    var id := msg.takingOrder.value.id;
    assert orders[id].(locked := true).(locked := false) == orders[id];
  }

  /** What handling finished trades works on: own orders, the next identifier, locked coins. */
  datatype Shelf = Shelf(orders: OrderMap, nextId: nat, locked: set<OutPoint>)

  /** The shelf after one finished trade is handled, if no CHECK fails. */
  function AfterHandling(me: string, valid: Order -> bool, s: Shelf, t: TradeState): Option<Shelf> {
    var id := t.order.id.GetOr(0);
    if t.state == Success then
      if GetRole(me, t) == Taker then Some(s)
      else
        var left := Refreshed(s.orders - {id}, valid);
        if Rest(t).None? || !valid(Rest(t).value) || s.nextId >= TWO_64 then Some(s.(orders := left))
        else Some(s.(orders := Refreshed(left[s.nextId := Stored(Rest(t).value)], valid), nextId := s.nextId + 1))
    else if GetRole(me, t) == Taker then Some(s.(locked := s.locked - ReleaseSet(me, t)))
    else if !CanUnlock(s.orders, id) then None
    else Some(s.(orders := Refreshed(Unlocked(s.orders, id), valid), locked := s.locked - ReleaseSet(me, t)))
  }

  /** The shelf after a list of finished trades is handled, in order. */
  function AfterAll(me: string, valid: Order -> bool, s: Shelf, trades: seq<TradeState>): Option<Shelf> {
    if trades == [] then Some(s)
    else
      var before := AfterAll(me, valid, s, trades[..|trades| - 1]);
      if before.None? then None else AfterHandling(me, valid, before.value, trades[|trades| - 1])
  }

  /** Handling settles the order of a trade of ours: free again after a failure, gone after a success. */
  lemma HandlingSettlesTheOrder(me: string, valid: Order -> bool, s: Shelf, t: TradeState)
    requires GetRole(me, t) == Maker && AfterHandling(me, valid, s, t).Some? && t.order.id.GetOr(0) < s.nextId
    ensures var (r, id) := (AfterHandling(me, valid, s, t).value, t.order.id.GetOr(0));
            && (t.state == Success ==> id !in r.orders && r.locked == s.locked)
            && (t.state != Success ==> !CanUnlock(r.orders, id) && r.locked == s.locked - ReleaseSet(me, t))
            && forall other :: other in r.orders && other != id && other < s.nextId ==>
                 other in s.orders && r.orders[other] == s.orders[other]
  {
    hide Rest, ReleaseSet;
  }

  /** Coins are only freed, and those of every failed trade are. */
  lemma {:induction false} AfterAllFrees(me: string, valid: Order -> bool, s: Shelf, trades: seq<TradeState>,
                                         o: OutPoint)
    requires AfterAll(me, valid, s, trades).Some?
    ensures o in AfterAll(me, valid, s, trades).value.locked <==>
              o in s.locked && forall t :: t in trades && t.state != Success ==> o !in ReleaseSet(me, t)
  {
    hide Rest, ReleaseSet;
    if trades != [] {
      var k := |trades| - 1;
      AfterAllFrees(me, valid, s, trades[..k], o);
      assert trades == trades[..k] + [trades[k]];
    }
  }

  class TradeManager {
    const world: World
    const account: string
    const wallet: Wallet
    const myOrders: MyOrders
    var trades: seq<TradeState>
    var archive: seq<PublicTrade>
    ghost const outside: set<OutPoint>
    ghost var events: seq<Event>

    /** The state of the node after all steps so far. */
    ghost function State(): Node
      reads this
    {
      Run(world, NewNode(account, outside), events)
    }

    ghost predicate Valid()
      reads this, wallet, myOrders
    {
      && Represented() && LawfulRun(world, NewNode(account, outside), events) && !State().crashed
    }

    /** Own orders and locked coins as they are. */
    ghost function OnShelf(): Shelf
      reads myOrders, wallet
    {
      Shelf(myOrders.orders, myOrders.nextFreeId, wallet.locked)
    }

    /** The fields hold what the node's state says. */
    ghost predicate Represented()
      reads this, wallet, myOrders
    {
      var n := State();
      && n.account == account && myOrders.account == account && myOrders.Valid()
      && trades == Stripped(n.trades) && archive == Infos(n.archive) && wallet.locked == n.wallet
      && myOrders.orders == n.orders && myOrders.nextFreeId == n.nextId
    }

    constructor (w: World, a: string, wlt: Wallet, mo: MyOrders)
      requires mo.Valid() && mo.account == a && mo.orders == map[] && mo.nextFreeId == 0
      ensures Valid() && world == w && account == a && wallet == wlt && myOrders == mo && events == []
    {
      world, account, wallet, myOrders := w, a, wlt, mo;
      trades, archive := [], [];
      outside, events := wlt.locked, [];
    }

    /** One more step of the node. */
    ghost method Record(e: Event)
      requires LawfulRun(world, NewNode(account, outside), events) && LawfulStep(world, State(), e)
      modifies this`events
      ensures events == old(events) + [e] && State() == Step(world, old(State()), e)
      ensures LawfulRun(world, NewNode(account, outside), events)
    {
      RunOneMore(world, NewNode(account, outside), events, e);
      events := events + [e];
    }

    /** Every trade can be looked at for a reply, and a pending one has our PSBT. */
    lemma TradesUsable()
      requires Valid()
      ensures Sound(world, State())
      ensures forall i :: 0 <= i < |trades| ==>
                UsableSellerData(account, trades[i]) && (trades[i].state == Pending ==> trades[i].ourPsbt.Some?)
    {
      RunsAreSound(world, account, outside, events);
      var n := State();
      forall i | 0 <= i < |trades|
        ensures UsableSellerData(account, trades[i]) && (trades[i].state == Pending ==> trades[i].ourPsbt.Some?)
      {
        assert TradeSound(world, n.account, n.log, n.trades[i].trade);
      }
    }

    /** Looks for a reply in the data of one trade. */
    method Search(data: TradeState, rpc: Rpc) returns (pb: TradeState, outcome: Outcome, ghost r: Result)
      requires UsableSellerData(account, data)
      modifies wallet
      ensures r == HasReply(world, account, data, old(wallet.locked), rpc)
      ensures pb == r.trade && outcome == r.outcome && wallet.locked == r.locked
    {
      var t := new Trade(world, account, data);
      var broadcast;
      ghost var verified;
      outcome, broadcast, verified := t.HasReply(rpc, wallet);
      pb := t.pb;
      r := Result(t.pb, wallet.locked, outcome, broadcast, verified);
    }

    ghost method RecordTake(o: Order, units: Int64, now: int, rpc: Rpc)
      requires Valid() && LawfulStep(world, State(), Event.TakeOrder(o, units, now, rpc))
      modifies this`events
      ensures events == old(events) + [Event.TakeOrder(o, units, now, rpc)]
      ensures State() == Take(world, old(State()), o, units, now, rpc)
      ensures LawfulRun(world, NewNode(account, outside), events)
    {
      hide Take, LawfulRun, LawfulStep, Run;
      Record(Event.TakeOrder(o, units, now, rpc));
    }

    /** Whatever the manager has done, no trade is lost, doubled or handled twice. */
    lemma TradesAreKept()
      requires Valid()
      ensures Conserved(State())
    {
      TradesAreConserved(world, account, outside, events);
    }

    /** Starts a trade as the taker, and returns the message for the maker. */
    method TakeOrder(o: Order, units: Int64, now: int, rpc: Rpc) returns (reply: Option<Message>, died: bool)
      requires Valid() && LawfulStep(world, State(), Event.TakeOrder(o, units, now, rpc))
      modifies this, wallet
      ensures events == old(events) + [Event.TakeOrder(o, units, now, rpc)]
      ensures died <==> State().crashed
      ensures !died ==> Valid() && Sends(old(State()).log, State().log, reply)
      ensures reply.Some? <==> |trades| == |old(trades)| + 1
    {
      hide Run, LawfulRun, LawfulStep, HasReply, Take, CheckOrder, Sends;
      ghost var n := State();
      RecordTake(o, units, now, rpc);
      TakeRefused(world, n, o, units, now, rpc);
      if !CheckOrder(o, units) {
        return None, false;
      }
      if o.account.GetOr("") == account {
        return None, false;
      }
      var data := NewTrade(o, ToUInt64(units), o.account.GetOr(""), now);
      var pb, outcome;
      ghost var r;
      pb, outcome, r := Search(data, rpc);
      var msg := if outcome.Sent? then outcome.msg else BasicMessage(data);
      msg := msg.(takingOrder := Some(TakingOrder(o.id.GetOr(0), data.units)));
      TakeCases(world, n, o, units, now, rpc, data, r, msg);
      if outcome.Died? {
        return None, true;
      }
      if outcome.Threw? {
        return None, false;
      }
      trades := trades + [pb];
      reply, died := Some(msg), false;
    }

    ghost method RecordMessage(msg: Message, rpc: Rpc)
      requires Valid() && LawfulStep(world, State(), AnyMessage(msg, rpc))
      modifies this`events
      ensures events == old(events) + [AnyMessage(msg, rpc)]
      ensures State() == Nodes.Deliver(world, old(State()), msg, rpc)
      ensures LawfulRun(world, NewNode(account, outside), events)
    {
      hide Nodes.Deliver, LawfulRun, LawfulStep, Run;
      Record(AnyMessage(msg, rpc));
    }

    /** Passes a message to the first trade it matches, and looks for a reply there. */
    method Deliver(msg: Message, rpc: Rpc) returns (reply: Option<Message>, died: bool)
      requires Valid() && LawfulStep(world, State(), AnyMessage(msg, rpc))
      modifies this, wallet
      ensures events == old(events) + [AnyMessage(msg, rpc)]
      ensures State() == Nodes.Deliver(world, old(State()), msg, rpc) && (died <==> State().crashed)
      ensures State().jobs == old(State().jobs) && |trades| == |old(trades)|
      ensures !died ==> Valid() && Sends(old(State()).log, State().log, reply)
    {
      hide Run, LawfulRun, LawfulStep, HasReply, Nodes.Deliver, HandleMessage, Sends, Sound, UsableSellerData, Matches;
      ghost var n := State();
      TradesUsable();
      RecordMessage(msg, rpc);
      for i := 0 to |trades|
        invariant forall j :: 0 <= j < i ==> !Matches(trades[j], msg)
      {
        if Matches(trades[i], msg) {
          assert i == FindMatch(n.trades, msg, 0);
          var data, outcome;
          ghost var r;
          data := Handled(trades[i], msg);
          data, outcome, r := Search(data, rpc);
          trades := trades[i := data];
          reply := if outcome.Sent? then Some(outcome.msg) else None;
          died := outcome.Died?;
          DeliverCases(world, n, msg, rpc, i, HandleMessage(account, n.trades[i].trade, msg), r, reply);
          return;
        }
      }
      UnmatchedCases(world, n, msg, rpc);
      reply, died := None, false;
    }

    /** Merges a message into the data of one trade. */
    method Handled(data: TradeState, msg: Message) returns (pb: TradeState)
      requires UsableSellerData(account, data)
      ensures pb == HandleMessage(account, data, msg) && UsableSellerData(account, pb)
    {
      var t := new Trade(world, account, data);
      t.HandleMessage(msg);
      pb := t.pb;
    }

    // -------------------------------------------------------------------------

    ghost method RecordContinue(i: nat, now: int, valid: bool)
      requires LawfulRun(world, NewNode(account, outside), events) && i < |State().jobs| && !State().crashed
      modifies this`events
      ensures events == old(events) + [Continue(i, now, valid)]
      ensures State() == ContinueJob(old(State()), i, now, valid)
      ensures LawfulRun(world, NewNode(account, outside), events)
    {
      hide ContinueJob, LawfulRun, Run;
      Record(Continue(i, now, valid));
    }

    /** The own orders have been refreshed. */
    ghost method RecordDrop(ids: set<UInt64>)
      requires LawfulRun(world, NewNode(account, outside), events) && !State().crashed
      modifies this`events
      ensures events == old(events) + [CancelOrders(ids)] && State() == Drop(old(State()), ids)
      ensures LawfulRun(world, NewNode(account, outside), events)
    {
      hide Drop, LawfulRun, Run;
      Record(CancelOrders(ids));
    }

    ghost method RecordTaking(msg: Message)
      requires LawfulRun(world, NewNode(account, outside), events) && !State().crashed
      modifies this`events
      ensures events == old(events) + [TakingMessage(msg)] && State() == StartTaking(old(State()), msg)
      ensures LawfulRun(world, NewNode(account, outside), events)
    {
      hide StartTaking, LawfulRun, Run;
      Record(TakingMessage(msg));
    }

    /** The first section of a taking message: locks the order, if it is there and free. */
    method TryLock(msg: Message) returns (o: Option<Order>)
      requires Valid() && msg.takingOrder.Some?
      modifies this`events, myOrders
      ensures Valid() && State().log == old(State()).log && State().wallet == old(State()).wallet
      ensures o.Some? <==> CanLock(old(State()).orders, msg.takingOrder.value.id)
      ensures o.None? ==> State() == old(State())
      ensures trades == old(trades)
      ensures myOrders.orders == if o.None? then old(myOrders.orders)
                else Refreshed(Locked(old(myOrders.orders), msg.takingOrder.value.id), myOrders.valid)
      ensures o.Some? ==> o.value == Copy(account, msg.takingOrder.value.id,
              old(State()).orders[msg.takingOrder.value.id])
                          && State().jobs == old(State()).jobs + [Taken(o.value, msg)]
    {
      hide Run, LawfulRun, StartTaking, Drop;
      ghost var n := State();
      StartTakingCases(n, msg);
      ghost var locked := if CanLock(n.orders, msg.takingOrder.value.id)
                          then Locked(n.orders, msg.takingOrder.value.id) else n.orders;
      o := myOrders.TryLock(msg.takingOrder.value.id);
      if o.Some? {
        RecordTaking(msg);
        DroppedIs(locked, myOrders.valid);
        DropCases(State(), Dropped(locked, myOrders.valid));
        RecordDrop(Dropped(locked, myOrders.valid));
      }
    }

    /** The second section: adds a trade for an order just locked, unless it may not be taken. */
    method OrderTaken(o: Order, units: Int64, counterparty: string, now: int, ghost i: nat) returns (ok: bool)
      requires Valid() && i < |State().jobs| && State().jobs[i].Taken? && State().jobs[i].msg.takingOrder.Some?
      requires State().jobs[i].order == o && State().jobs[i].msg.counterparty == counterparty
      requires units == ToInt64(State().jobs[i].msg.takingOrder.value.units)
      modifies this
      ensures events == old(events) + [Continue(i, now, true)] && Valid()
      ensures State().log == old(State()).log && State().wallet == old(State()).wallet
      ensures ok <==> CheckOrder(o, units) && counterparty != account
      ensures State().jobs == if ok then Without(old(State()).jobs,
              i) else old(State()).jobs[i := Refused(o.id.GetOr(0))]
      ensures trades == if ok then old(trades) + [NewTrade(o, ToUInt64(units), counterparty, now)] else old(trades)
    {
      hide Run, LawfulRun, ContinueJob, CheckOrder;
      ghost var n := State();
      OrderTakenCases(n, i, now);
      RecordContinue(i, now, true);
      if !CheckOrder(o, units) {
        return false;
      }
      if counterparty == account {
        return false;
      }
      trades := trades + [NewTrade(o, ToUInt64(units), counterparty, now)];
      ok := true;
    }

    /** Makes an order available again after a refusal, which CHECKs that it is there and locked. */
    method Unlock(id: UInt64, now: int, ghost i: nat) returns (died: bool)
      requires Valid() && i < |State().jobs| && State().jobs[i] == Refused(id)
      modifies this`events, myOrders
      ensures died <==> !CanUnlock(old(State()).orders, id)
      ensures died <==> State().crashed
      ensures myOrders.orders == if died then old(myOrders.orders)
                                 else Refreshed(Unlocked(old(myOrders.orders), id), myOrders.valid)
      ensures !died ==> Valid() && State().jobs == Without(old(State()).jobs, i)
                        && State().log == old(State()).log && State().wallet == old(State()).wallet
    {
      hide Run, LawfulRun, ContinueJob, Drop, Without;
      ghost var n := State();
      RefusedCases(n, i, now);
      RecordContinue(i, now, true);
      if !CanUnlock(myOrders.orders, id) {
        return true;
      }
      UnlockOrder(id);
      died := false;
    }

    /**
     * Processes a message: if it takes an order of ours, that order is locked
     * and the trade added first. Then the trade it is for gets to see it.
     */
    method ProcessMessage(msg: Message, now: int, rpc: Rpc) returns (reply: Option<Message>, died: bool)
      requires Valid() && LawfulStep(world, State(), AnyMessage(msg, rpc))
      modifies this, wallet, myOrders
      ensures !died ==> Valid() && State().jobs == old(State()).jobs && Sends(old(State()).log, State().log, reply)
      ensures died <==> State().crashed
      ensures msg.takingOrder.None? ==> State() == Nodes.Deliver(world, old(State()), msg, rpc)
      ensures msg.takingOrder.Some? && !CanLock(old(State()).orders, msg.takingOrder.value.id)
              ==> !died && reply.None? && State() == old(State())
      ensures !died ==> AfterTaking(account, myOrders.valid, old(myOrders.orders), msg) == Some(myOrders.orders)
      ensures AfterTaking(account, myOrders.valid, old(myOrders.orders), msg).None? ==> died
      ensures msg.takingOrder.Some? && !died ==>
                |trades| == |old(trades)| + if Takes(account, old(myOrders.orders), msg) then 1 else 0
      ensures msg.takingOrder.Some? && Takes(account, old(myOrders.orders), msg) ==>
                var (id, units) := (msg.takingOrder.value.id, msg.takingOrder.value.units);
                var t := NewTrade(Copy(account, id, old(myOrders.orders)[id]), units, msg.counterparty, now);
                exists mid :: AddsTrade(old(State()), mid, t) && State() == Nodes.Deliver(world, mid, msg, rpc)
    {
      hide Run, LawfulRun, HasReply, Nodes.Deliver, CheckOrder, CanUnlock, Sends, Lawful, LawfulView;
      ghost var n := State();
      if msg.takingOrder.Some? {
        var o := TryLock(msg);
        if o.None? {
          NothingSent(n.log);
          return None, false;
        }
        ghost var i := |n.jobs|;
        var ok := OrderTaken(o.value, ToInt64(msg.takingOrder.value.units), msg.counterparty, now, i);
        assert ToUInt64(ToInt64(msg.takingOrder.value.units)) == msg.takingOrder.value.units;
        assert ok ==> AddsTrade(n, State(), NewTrade(o.value, msg.takingOrder.value.units, msg.counterparty, now));
        if !ok {
          died := Unlock(msg.takingOrder.value.id, now, i);
          NothingSent(n.log);
          return None, died;
        }
      }
      reply, died := Deliver(msg, rpc);
    }

    // -------------------------------------------------------------------------

    /** Updates the data of one trade. */
    method Updated(data: TradeState, now: int, c: ChainCheck, limits: Limits) returns (pb: TradeState)
      requires data.state == Pending ==> data.ourPsbt.Some?
      ensures pb == Nodes.Updated(data, now, c, limits)
    {
      var t := new Trade(world, account, data);
      t.Update(now, c, limits);
      pb := t.pb;
    }

    /** Updates every trade and tells those that are final from those still active, both in order. */
    method SplitTrades(now: int, checks: nat -> ChainCheck, limits: Limits, ghost numbered: seq<Numbered>)
      returns (stillActive: seq<TradeState>, finalised: seq<TradeState>, archived: seq<PublicTrade>)
      requires trades == Stripped(numbered)
      requires forall i :: 0 <= i < |trades| ==> trades[i].state == Pending ==> trades[i].ourPsbt.Some?
      ensures var updated := UpdateEach(numbered, now, checks, limits);
              && stillActive == Stripped(Select(updated, false)) && finalised == Stripped(Select(updated, true))
              && archived == Infos(ArchiveAll(account, Select(updated, true)))
              && |stillActive| + |finalised| == |trades|
    {
      hide Nodes.Updated, GetPublicInfo, IsFinalised, Select, ArchiveAll;
      ghost var updated := UpdateEach(numbered, now, checks, limits);
      SplitNone(account, updated);
      stillActive, finalised, archived := [], [], [];
      for i := 0 to |trades|
        invariant stillActive == Stripped(Select(updated[..i], false))
        invariant finalised == Stripped(Select(updated[..i], true))
        invariant archived == Infos(ArchiveAll(account, Select(updated[..i], true)))
        invariant |stillActive| + |finalised| == i
      {
        var t := Updated(trades[i], now, checks(i), limits);
        SplitOneMore(account, updated, i);
        if IsFinalised(t) {
          archived := archived + [GetPublicInfo(account, t)];
          finalised := finalised + [t];
        } else {
          stillActive := stillActive + [t];
        }
      }
      assert updated[..|trades|] == updated;
    }

    /** The locked part of the periodic update: final trades move from the list to the archive. */
    method UpdateAndArchive(now: int, checks: nat -> ChainCheck, limits: Limits) returns (finalised: seq<TradeState>)
      requires Valid()
      modifies this
      ensures events == old(events) + [UpdateTick(now, checks, limits)] && Valid()
      ensures State() == Nodes.UpdateAndArchive(old(State()), now, checks, limits)
      ensures finalised == Stripped(Select(UpdateEach(old(State()).trades, now, checks, limits), true))
      ensures |trades| + |finalised| == |old(trades)|
    {
      hide Run, LawfulRun, Nodes.UpdateAndArchive, UpdateEach, Select, ArchiveAll, Sound;
      ghost var n := State();
      TradesUsable();
      ArchiveCases(n, now, checks, limits);
      RecordTick(now, checks, limits);
      var stillActive, archived;
      stillActive, finalised, archived := SplitTrades(now, checks, limits, n.trades);
      trades := stillActive;
      archive := archive + archived;
    }

    ghost method RecordTick(now: int, checks: nat -> ChainCheck, limits: Limits)
      requires Valid()
      modifies this`events
      ensures events == old(events) + [UpdateTick(now, checks, limits)]
      ensures State() == Nodes.UpdateAndArchive(old(State()), now, checks, limits)
      ensures LawfulRun(world, NewNode(account, outside), events)
    {
      hide Nodes.UpdateAndArchive, LawfulRun, Run;
      Record(UpdateTick(now, checks, limits));
    }

    /** Makes an order available again, and refreshes the orders. */
    method UnlockOrder(id: UInt64)
      requires myOrders.Valid() && CanUnlock(myOrders.orders, id) && State().orders == Unlocked(myOrders.orders, id)
      requires LawfulRun(world, NewNode(account, outside), events) && !State().crashed
      modifies this`events, myOrders
      ensures myOrders.Valid() && myOrders.orders == State().orders && myOrders.nextFreeId == old(myOrders.nextFreeId)
      ensures LawfulRun(world, NewNode(account, outside), events) && !State().crashed
      ensures OnlyOrders(old(State()), State()) && State().nextId == old(State()).nextId
      ensures State().jobs == old(State()).jobs && State().log == old(State()).log
      ensures myOrders.orders == Refreshed(Unlocked(old(myOrders.orders), id), myOrders.valid)
    {
      hide Run, LawfulRun, Drop;
      ghost var orders := State().orders;
      myOrders.Unlock(id);
      DroppedIs(orders, myOrders.valid);
      DropCases(State(), Dropped(orders, myOrders.valid));
      RecordDrop(Dropped(orders, myOrders.valid));
    }

    /** Unlocks the coins of a failed trade. */
    method Release(t: TradeState)
      modifies wallet
      ensures wallet.locked == old(wallet.locked) - ReleaseSet(account, t)
    {
      if t.sellerData.Some? && t.sellerData.value.nameOutput.Some? {
        var _ := wallet.LockUnspent(false, t.sellerData.value.nameOutput.value, false);
      }
      if GetOrderType(account, t) == Bid && t.ourPsbt.Some? {
        wallet.UnlockPsbtInputs(t.ourPsbt.value);
      }
    }

    /** A failed or abandoned trade: its order and its coins become available again. */
    method HandleFailure(t: TradeState, now: int, ghost i: nat) returns (died: bool)
      requires Valid() && i < |State().jobs| && State().jobs[i].Finalised? && State().jobs[i].item.trade == t
      requires t.state != Success
      modifies this`events, wallet, myOrders
      ensures died <==> AfterHandling(account, myOrders.valid, old(OnShelf()), t).None?
      ensures died <==> State().crashed
      ensures !died ==> Valid() && State().jobs == Without(old(State()).jobs, i)
      ensures !died ==> AfterHandling(account, myOrders.valid, old(OnShelf()), t) == Some(OnShelf())
    {
      hide Run, LawfulRun, ContinueJob, Drop, GetRole, CanUnlock, ReleaseSet;
      ghost var n := State();
      HandleFailureCases(n, i, now);
      RecordContinue(i, now, true);
      if GetRole(account, t) == Maker {
        var id := t.order.id.GetOr(0);
        if !CanUnlock(myOrders.orders, id) {
          return true;
        }
        UnlockOrder(id);
      }
      ReleaseCases(State(), i, now);
      RecordContinue(i, now, true);
      Release(t);
      assert n.jobs[i := Releasing(t)][..i] == n.jobs[..i] && n.jobs[i := Releasing(t)][i + 1..] == n.jobs[i + 1..];
      died := false;
    }

    /** A successful trade: the order we have sold goes, and the rest of it, if any, is offered anew. */
    method HandleSuccess(t: TradeState, now: int, ghost i: nat)
      requires Valid() && i < |State().jobs| && State().jobs[i].Finalised? && State().jobs[i].item.trade == t
      requires t.state == Success && myOrders.nextFreeId + 1 < TWO_64
      modifies this`events, myOrders
      ensures Valid() && State().jobs == Without(old(State()).jobs, i)
      ensures AfterHandling(account, myOrders.valid, old(OnShelf()), t) == Some(OnShelf())
    {
      hide Run, LawfulRun, ContinueJob, Drop, GetRole, Rest;
      ghost var n := State();
      HandleSuccessCases(n, i, now);
      RecordContinue(i, now, true);
      if GetRole(account, t) == Maker {
        var id := t.order.id.GetOr(0);
        RemoveOrder(id);
        var newOrder := Rest(t);
        if newOrder.Some? {
          AddRest(newOrder.value, id, now, i);
          assert n.jobs[i := Recreating(newOrder.value, id)][..i] == n.jobs[..i]
                 && n.jobs[i := Recreating(newOrder.value, id)][i + 1..] == n.jobs[i + 1..];
        }
      }
    }

    /** Removes an order, and refreshes the orders. */
    method RemoveOrder(id: UInt64)
      requires myOrders.Valid() && State().orders == myOrders.orders - {id}
      requires LawfulRun(world, NewNode(account, outside), events) && !State().crashed
      modifies this`events, myOrders
      ensures myOrders.Valid() && myOrders.orders == State().orders && myOrders.nextFreeId == old(myOrders.nextFreeId)
      ensures myOrders.orders == Refreshed(old(myOrders.orders) - {id}, myOrders.valid)
      ensures LawfulRun(world, NewNode(account, outside), events) && !State().crashed
      ensures OnlyOrders(old(State()), State()) && State().nextId == old(State()).nextId
      ensures State().jobs == old(State()).jobs
    {
      hide Run, LawfulRun, Drop;
      ghost var orders := State().orders;
      myOrders.RemoveById(id);
      DroppedIs(orders, myOrders.valid);
      DropCases(State(), Dropped(orders, myOrders.valid));
      RecordDrop(Dropped(orders, myOrders.valid));
    }

    /** Offers the rest of a sold order, if it is valid. */
    method AddRest(o: Order, ghost from: UInt64, now: int, ghost i: nat)
      requires Valid() && i < |State().jobs| && State().jobs[i] == Recreating(o, from)
               && myOrders.nextFreeId + 1 < TWO_64
      modifies this`events, myOrders
      ensures Valid() && State().jobs == Without(old(State()).jobs, i)
      ensures myOrders.nextFreeId == old(myOrders.nextFreeId) + if myOrders.valid(o) then 1 else 0
      ensures myOrders.orders
              == if myOrders.valid(o)
                 then Refreshed(old(myOrders.orders)[old(myOrders.nextFreeId) := Stored(o)], myOrders.valid)
                 else old(myOrders.orders)
    {
      hide Run, LawfulRun, ContinueJob, Drop, Without;
      RecreateCases(State(), i, now, myOrders.valid(o));
      RecordContinue(i, now, myOrders.valid(o));
      ghost var orders := State().orders;
      var added := myOrders.Add(o);
      if added {
        DroppedIs(orders, myOrders.valid);
        DropCases(State(), Dropped(orders, myOrders.valid));
        RecordDrop(Dropped(orders, myOrders.valid));
      }
    }

    /** The part of the periodic update without the lock: each final trade is handled by its state. */
    method HandleFinalised(finalised: seq<TradeState>, now: int, ghost jobs: seq<Job>, ghost final: seq<Numbered>)
      returns (died: bool)
      requires Valid() && myOrders.nextFreeId + |finalised| < TWO_64
      requires finalised == Stripped(final) && forall x :: x in final ==> IsFinalised(x.trade)
      requires jobs <= State().jobs && |State().jobs| == |jobs| + |final|
      requires forall k :: 0 <= k < |final| ==> State().jobs[|jobs| + k] == Finalised(final[k])
      modifies this`events, wallet, myOrders
      ensures died <==> State().crashed
      ensures !died ==> Valid() && State().jobs == jobs
      ensures var after := AfterAll(account, myOrders.valid, old(OnShelf()), finalised);
              (died ==> after.None?) && (!died ==> after == Some(OnShelf()))
    {
      hide Run, LawfulRun, IsFinalised, GetRole, CanUnlock, AfterHandling, Infos;
      ghost var (i, shelf, todo) := (|jobs|, OnShelf(), State().jobs[|jobs|..]);
      for k := 0 to |finalised|
        invariant Valid() && State().jobs == jobs + todo[k..]
        invariant myOrders.nextFreeId + |finalised| - k < TWO_64
        invariant AfterAll(account, myOrders.valid, shelf, finalised[..k]) == Some(OnShelf())
      {
        NextHandled(account, myOrders.valid, shelf, finalised, k);
        WithoutFirst(jobs, todo, k);
        FinalState(final[k]);
        match finalised[k].state {
          case Abandoned | Failed =>
            died := HandleFailure(finalised[k], now, i);
            if died {
              FailedForGood(account, myOrders.valid, shelf, finalised, k + 1);
              return;
            }
          case Success =>
            HandleSuccess(finalised[k], now, i);
          case Initiated | Pending =>
            assert false;
        }
      }
      assert finalised[..|finalised|] == finalised;
      died := false;
    }

    /**
     * The periodic update: archives what is final, then handles it, one trade
     * after the other.
     */
    method UpdateAndArchiveTrades(now: int, checks: nat -> ChainCheck, limits: Limits) returns (died: bool)
      requires Valid() && myOrders.nextFreeId + |trades| < TWO_64
      modifies this, wallet, myOrders
      ensures died <==> State().crashed
      ensures var updated := UpdateEach(old(State()).trades, now, checks, limits);
              && trades == Stripped(Select(updated, false))
              && archive == old(archive) + Infos(ArchiveAll(account, Select(updated, true)))
      ensures !died ==> Valid() && State().jobs == old(State()).jobs
      ensures var finalised := Stripped(Select(UpdateEach(old(State()).trades, now, checks, limits), true));
              var after := AfterAll(account, myOrders.valid, old(OnShelf()), finalised);
              (died ==> after.None?) && (!died ==> after == Some(OnShelf()))
    {
      hide Run, LawfulRun, UpdateEach, Select, ArchiveAll, HandleAll, IsFinalised, AfterAll;
      ghost var n := State();
      ghost var updated := UpdateEach(n.trades, now, checks, limits);
      ArchiveCases(n, now, checks, limits);
      SelectFrom(updated, true);
      var finalised := UpdateAndArchive(now, checks, limits);
      died := HandleFinalised(finalised, now, n.jobs, Select(updated, true));
    }
  }

  /** Handling one more trade, and what that does to the next identifier. */
  lemma NextHandled(me: string, valid: Order -> bool, s: Shelf, trades: seq<TradeState>, k: nat)
    requires k < |trades| && AfterAll(me, valid, s, trades[..k]).Some?
    ensures var before := AfterAll(me, valid, s, trades[..k]).value;
            && AfterAll(me, valid, s, trades[..k + 1]) == AfterHandling(me, valid, before, trades[k])
            && (AfterHandling(me, valid, before, trades[k]).Some? ==>
                  AfterHandling(me, valid, before, trades[k]).value.nextId <= before.nextId + 1)
  {
    assert trades[..k + 1][..k] == trades[..k];
  }

  /** After a failed CHECK nothing more is handled. */
  lemma {:induction false} FailedForGood(me: string, valid: Order -> bool, s: Shelf, trades: seq<TradeState>, k: nat)
    requires k <= |trades| && AfterAll(me, valid, s, trades[..k]).None?
    ensures AfterAll(me, valid, s, trades).None?
    decreases |trades|
  {
    if k == |trades| {
      assert trades[..k] == trades;
    } else {
      var l := |trades| - 1;
      assert trades[..l][..k] == trades[..k];
      FailedForGood(me, valid, s, trades[..l], k);
    }
  }

  lemma WithoutFirst(jobs: seq<Job>, todo: seq<Job>, k: nat)
    requires k < |todo|
    ensures Without(jobs + todo[k..], |jobs|) == jobs + todo[k + 1..]
  {
  }

  lemma FinalState(x: Numbered)
    requires IsFinalised(x.trade)
    ensures x.trade.state != Initiated && x.trade.state != Pending
  {
  }

  lemma ArchiveOneMore(me: string, items: seq<Numbered>, x: Numbered)
    ensures ArchiveAll(me, items + [x]) == ArchiveAll(me, items) + [Archived(x.serial, GetPublicInfo(me, x.trade))]
  {
    assert (items + [x])[..|items|] == items;
  }

  lemma NothingSent(log: seq<Entry>)
    ensures Sends(log, log, None)
  {
  }
}
