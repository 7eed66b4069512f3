/**
 * One active trade per order. The maker's side sees to that by itself. The
 * taker's does not: this is the exact condition, and a run that breaks it.
 */
module NodeIdentifiers {
  import opened Amounts
  import opened Chain
  import opened Nodes
  import opened NodeOrders
  import opened Orders
  import opened OwnOrders
  import opened Psbts
  import opened TradeRules
  import opened TradeRuns
  import opened Wrappers

  /** No two trades are for the same order of the same maker. */
  predicate Distinct(trades: seq<Numbered>) {
    forall i, j :: 0 <= i < j < |trades| ==> GetIdentifier(trades[i].trade) != GetIdentifier(trades[j].trade)
  }

  predicate IsActive(trades: seq<Numbered>, id: Identifier) {
    exists i :: 0 <= i < |trades| && GetIdentifier(trades[i].trade) == id
  }

  /**
   * A take that goes through: the order can be taken, is not one's own, and a
   * taker who sells gets to know their name output and, if they lock it, two addresses.
   */
  predicate StartsTrade(n: Node, o: Order, units: Int64, rpc: Rpc) {
    && !n.crashed && CheckOrder(o, units) && o.account.GetOr("") != n.account
    && (o.Type() == Bid ==>
          rpc.nameShow.Some? && (rpc.lockRefused || rpc.nameShow.value in n.wallet || rpc.newAddresses.Some?))
  }

  /** A step in which the user takes an order they are trading on already. */
  predicate TakesAgain(n: Node, e: Event) {
    && e.TakeOrder? && StartsTrade(n, e.order, e.units, e.rpc)
    && IsActive(n.trades, Identifier(e.order.account.GetOr(""), e.order.id.GetOr(0)))
  }

  // ---------------------------------------------------------------------------

  /** A trade for an order of ours is told from all others by its identifier. */
  lemma MakersDiffer(n: Node, i: nat, j: nat)
    requires Exclusive(n) && i < j < |n.trades|
    requires GetRole(n.account, n.trades[i].trade) == Maker || GetRole(n.account, n.trades[j].trade) == Maker
    ensures GetIdentifier(n.trades[i].trade) != GetIdentifier(n.trades[j].trade)
  {
    hide Exclusive;
    if GetRole(n.account, n.trades[i].trade) == GetRole(n.account, n.trades[j].trade) {
      ActiveTradesDiffer(n, i, j);
    }
  }

  lemma {:induction false} SelectKeepsDistinct(s: seq<Numbered>, final: bool)
    requires Distinct(s)
    ensures Distinct(Select(s, final)) && forall x :: x in Select(s, final) ==> x in s
  {
    if s != [] {
      var k := |s| - 1;
      SelectKeepsDistinct(s[..k], final);
      var front := Select(s[..k], final);
      forall j | 0 <= j < |front| ensures GetIdentifier(front[j].trade) != GetIdentifier(s[k].trade) {
        assert front[j] in s[..k];
      }
    }
  }

  lemma UpdateTickKeepsDistinct(n: Node, now: int, checks: nat -> ChainCheck, limits: Limits)
    requires Distinct(n.trades)
    ensures Distinct(UpdateAndArchive(n, now, checks, limits).trades)
  {
    hide Select, Updated;
    var updated := UpdateEach(n.trades, now, checks, limits);
    forall i | 0 <= i < |updated| ensures GetIdentifier(updated[i].trade) == GetIdentifier(n.trades[i].trade) {
      UpdatedKeepsOrder(n.trades[i].trade, now, checks(i), limits);
    }
    SelectKeepsDistinct(updated, false);
  }

  lemma DeliverKeepsDistinct(w: World, n: Node, msg: Message, rpc: Rpc)
    requires Distinct(n.trades)
    ensures Distinct(Deliver(w, n, msg, rpc).trades)
  {
    hide Deliver, Reply, HandleMessage, Matches;
    DeliverEffect(w, n, msg, rpc);
  }

  /** One more trade: the last one is the only one that can have an identifier twice. */
  lemma AppendedDistinct(s: seq<Numbered>, x: Numbered)
    requires Distinct(s)
    ensures Distinct(s + [x]) <==> !IsActive(s, GetIdentifier(x.trade))
  {
    if i :| 0 <= i < |s| && GetIdentifier(s[i].trade) == GetIdentifier(x.trade) {
      assert (s + [x])[i] == s[i] && (s + [x])[|s|] == x;
    }
  }

  lemma ContinueKeepsDistinct(n: Node, i: nat, now: int, valid: bool)
    requires Exclusive(n) && Distinct(n.trades) && i < |n.jobs|
    ensures Distinct(ContinueJob(n, i, now, valid).trades)
  {
    hide Exclusive, OrderTaken, UnlockFor, Handle, Recreate, GetIdentifier, GetRole, CanUnlock;
    match n.jobs[i]
    case Taken(_, msg) => if msg.takingOrder.Some? { OrderTakenKeepsDistinct(n, i, now); }
    case Refused(id) => UnlockKeepsTrades(n, i, id);
    case Finalised(_) => HandleIs(n, i);
    case Releasing(_) =>
    case Recreating(_, _) => RecreateKeepsTrades(n, i, valid);
  }

  lemma UnlockKeepsTrades(n: Node, i: nat, id: UInt64)
    requires i < |n.jobs|
    ensures UnlockFor(n, i, id, []).trades == n.trades
  {
  }

  lemma RecreateKeepsTrades(n: Node, i: nat, valid: bool)
    requires i < |n.jobs| && n.jobs[i].Recreating?
    ensures Recreate(n, i, valid).trades == n.trades
  {
  }

  lemma OrderTakenKeepsDistinct(n: Node, i: nat, now: int)
    requires Exclusive(n) && Distinct(n.trades)
    requires i < |n.jobs| && n.jobs[i].Taken? && n.jobs[i].msg.takingOrder.Some?
    ensures Distinct(OrderTaken(n, i, now).trades)
  {
    hide Exclusive, CheckOrder;
    var m := OrderTaken(n, i, now);
    ShapeOf(n, i);
    OrderTakenKeeps(n, i, now);
    if m.trades != n.trades {
      var k := |n.trades|;
      assert GetRole(m.account, m.trades[k].trade) == Maker;
      forall j | 0 <= j < k ensures GetIdentifier(n.trades[j].trade) != GetIdentifier(m.trades[k].trade) {
        assert m.trades[j] == n.trades[j];
        MakersDiffer(m, j, k);
      }
      AppendedDistinct(n.trades, m.trades[k]);
    }
  }

  /** What the first search for a reply comes to for a taker. */
  lemma FirstReplyEnds(w: World, n: Node, o: Order, units: Int64, now: int, rpc: Rpc)
    requires o.account.GetOr("") != n.account
    ensures var r := Reply(w, n.account, NewTrade(o, ToUInt64(units), o.account.GetOr(""), now), n.wallet, rpc);
            && !r.outcome.Died?
            && (r.outcome.Threw? <==>
                  o.Type() == Bid && (rpc.nameShow.None? || (!rpc.lockRefused && rpc.nameShow.value !in n.wallet
                                                             && rpc.newAddresses.None?)))
  {
  }

  /** Taking an order adds a trade exactly if it goes through. */
  lemma TradeStartsExactly(w: World, n: Node, o: Order, units: Int64, now: int, rpc: Rpc)
    ensures var m := Step(w, n, TakeOrder(o, units, now, rpc));
            && (StartsTrade(n, o, units, rpc) ==> |m.trades| == |n.trades| + 1)
            && (!StartsTrade(n, o, units, rpc) ==> m.trades == n.trades)
  {
    hide CheckOrder, ReplyLog, Reply;
    if o.account.GetOr("") != n.account {
      FirstReplyEnds(w, n, o, units, now, rpc);
    }
  }

  lemma TakeDistinct(w: World, n: Node, o: Order, units: Int64, now: int, rpc: Rpc)
    requires Distinct(n.trades) && !n.crashed
    ensures Distinct(Take(w, n, o, units, now, rpc).trades) <==> !TakesAgain(n, TakeOrder(o, units, now, rpc))
  {
    hide Take, Reply, GetRole, CheckOrder, StartsTrade;
    TradeStartsExactly(w, n, o, units, now, rpc);
    var m := Take(w, n, o, units, now, rpc);
    TakeEffect(w, n, o, units, now, rpc);
    TakeIdentifier(w, n, o, units, now, rpc);
    if m.trades != n.trades {
      AppendedDistinct(n.trades, m.trades[|n.trades|]);
    }
  }

  lemma TakeIdentifier(w: World, n: Node, o: Order, units: Int64, now: int, rpc: Rpc)
    ensures var r := Reply(w, n.account, NewTrade(o, ToUInt64(units), o.account.GetOr(""), now), n.wallet, rpc);
            GetIdentifier(r.trade) == Identifier(o.account.GetOr(""), o.id.GetOr(0))
  {
    hide Reply;
    ReplyKeepsOrder(w, n.account, NewTrade(o, ToUInt64(units), o.account.GetOr(""), now), n.wallet, rpc);
  }

  /**
   * Every step keeps the identifiers of active trades different, exactly unless
   * the user takes an order that they are trading on already.
   */
  lemma StepKeepsDistinctExactly(w: World, n: Node, e: Event)
    requires Exclusive(n) && Distinct(n.trades)
    ensures Distinct(Step(w, n, e).trades) <==> !TakesAgain(n, e)
  {
    hide Exclusive, Distinct, Take, Deliver, UpdateAndArchive, ContinueJob, IsActive, CheckOrder;
    if !n.crashed {
      match e
      case TakeOrder(o, units, now, rpc) => TakeDistinct(w, n, o, units, now, rpc);
      case AnyMessage(msg, rpc) => DeliverKeepsDistinct(w, n, msg, rpc);
      case UpdateTick(now, checks, limits) => UpdateTickKeepsDistinct(n, now, checks, limits);
      case Continue(i, now, valid) => if i < |n.jobs| { ContinueKeepsDistinct(n, i, now, valid); }
      case AddOrder(_) =>
      case CancelOrders(_) =>
      case TakingMessage(_) =>
    }
  }

  /** Runs in which the user never takes an order again while they are trading on it. */
  ghost predicate TakesOnce(w: World, n: Node, events: seq<Event>) {
    events == []
    || (var k := |events| - 1;
        TakesOnce(w, n, events[..k]) && !TakesAgain(Run(w, n, events[..k]), events[k]))
  }

  /** Exactly in those runs there is at all times at most one active trade per order. */
  lemma {:induction false} OneTradePerOrderExactly(w: World, account: string, wallet: set<OutPoint>, events: seq<Event>)
    requires forall e :: e in events ==> UnlockedAdds(e)
    ensures TakesOnce(w, NewNode(account, wallet), events)
            <==> forall k :: 0 <= k <= |events| ==> Distinct(Run(w, NewNode(account, wallet), events[..k]).trades)
  {
    hide Distinct, Exclusive, Step, TakesAgain, UnlockedAdds;
    var n0 := NewNode(account, wallet);
    if events == [] {
      NoneIsDistinct(account, wallet);
    } else {
      var l := |events| - 1;
      var before := events[..l];
      OneTradePerOrderExactly(w, account, wallet, before);
      OrdersAreExclusive(w, account, wallet, before);
      assert forall k :: 0 <= k <= l ==> before[..k] == events[..k];
      assert events[..l + 1] == events && before[..l] == before;
      if Distinct(Run(w, n0, before).trades) {
        StepKeepsDistinctExactly(w, Run(w, n0, before), events[l]);
      }
    }
  }

  lemma NoneIsDistinct(account: string, wallet: set<OutPoint>)
    ensures Distinct(NewNode(account, wallet).trades)
  {
  }

  /** Then a message is meant for one trade only: the first match is the only one. */
  lemma OneMatch(n: Node, msg: Message, j: nat)
    requires Distinct(n.trades) && j < |n.trades| && Matches(n.trades[j].trade, msg)
    ensures FindMatch(n.trades, msg, 0) == j
  {
    var i := FindMatch(n.trades, msg, 0);
    assert i <= j && GetIdentifier(n.trades[i].trade) == GetIdentifier(n.trades[j].trade);
  }

  // ---------------------------------------------------------------------------

  const ANY_ASK := Order(Some("maker"), Some(7), Some("gold"), 1, 5, Some(Ask), Some(10), false)

  /**
   * Taking the same order twice gives two active trades that match the same
   * messages, all of which go to the first of them.
   */
  lemma TakenTwice(w: World, wallet: set<OutPoint>, now: int, rpc: Rpc, msg: Message)
    requires msg.counterparty == "maker" && msg.identifier == Identifier("maker", 7)
    ensures var e := TakeOrder(ANY_ASK, 1, now, rpc);
            var n := Run(w, NewNode("taker", wallet), [e, e]);
            && !n.crashed && |n.trades| == 2 && !Distinct(n.trades)
            && Matches(n.trades[0].trade, msg) && Matches(n.trades[1].trade, msg) && FindMatch(n.trades, msg, 0) == 0
  {
    var e := TakeOrder(ANY_ASK, 1, now, rpc);
    var n0 := NewNode("taker", wallet);
    var t := NewTrade(ANY_ASK, 1, "maker", now);
    BuyersStartSilently(w, wallet, t, rpc);
    assert [e, e][..1] == [e] && [e][..0] == [];
    TakenOnce(w, n0, t, now, rpc);
    var n1 := Step(w, n0, e);
    TakenOnce(w, n1, t, now, rpc);
    assert Run(w, n0, [e]) == n1;
    var n2 := Step(w, n1, e);
    assert Run(w, n0, [e, e]) == n2;
    assert n2.trades[0].trade == t && n2.trades[1].trade == t;
    assert GetIdentifier(n2.trades[0].trade) == GetIdentifier(n2.trades[1].trade);
  }

  lemma BuyersStartSilently(w: World, wallet: set<OutPoint>, t: TradeState, rpc: Rpc)
    requires t == NewTrade(ANY_ASK, 1, "maker", t.startTime)
    ensures Reply(w, "taker", t, wallet, rpc) == Ends(t, wallet, Silent)
  {
  }

  lemma TakenOnce(w: World, n: Node, t: TradeState, now: int, rpc: Rpc)
    requires n.account == "taker" && !n.crashed && t == NewTrade(ANY_ASK, 1, "maker", now)
    requires Reply(w, "taker", t, n.wallet, rpc) == Ends(t, n.wallet, Silent)
    ensures var m := Step(w, n, TakeOrder(ANY_ASK, 1, now, rpc));
            && m.trades == n.trades + [Numbered(n.nextSerial, t)] && m.wallet == n.wallet
            && m.account == n.account && !m.crashed
  {
    hide Reply, ReplyLog;
    assert ToUInt64(1) == 1;
  }
}
