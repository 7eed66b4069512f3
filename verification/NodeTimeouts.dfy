/**
 * Timeouts: a trade is abandoned exactly if its negotiation has taken too long,
 * at every update, and nothing is archived as abandoned for any other reason.
 */
module NodeTimeouts {
  import opened Amounts
  import opened Chain
  import opened NodeArchive
  import opened NodeOrders
  import opened NodeTrades
  import opened Nodes
  import opened Orders
  import opened OwnOrders
  import opened Psbts
  import opened TradeRules
  import opened TradeRuns
  import opened Wrappers

  /** A negotiation that has taken longer than a limit, which is in milliseconds. */
  predicate IsLate(t: TradeState, now: int, limits: Limits) {
    t.state == Initiated && (now - t.startTime) * 1000 > limits.timeoutMs
  }

  /** An update abandons exactly the late trades, and otherwise leaves the negotiation alone. */
  lemma AbandonsExactly(t: TradeState, now: int, c: ChainCheck, limits: Limits)
    requires t.state == Pending ==> t.ourPsbt.Some?
    ensures var t1 := Update(t, now, c, limits);
            && (t1.state == Abandoned <==> t.state == Abandoned || IsLate(t, now, limits))
            && (t.state == Initiated ==> t1 == t || t1 == t.(state := Abandoned))
            && (t1.state == Initiated ==> t.state == Initiated)
  {
  }

  /** Trades are on the list only while they are negotiated or pending. */
  ghost predicate NoneFinal(n: Node) {
    forall i :: 0 <= i < |n.trades| ==> n.trades[i].trade.state in {Initiated, Pending}
  }

  lemma UpdatedAbandons(t: TradeState, now: int, c: ChainCheck, limits: Limits)
    ensures var t1 := Updated(t, now, c, limits);
            && (t1.state == Abandoned <==> t.state == Abandoned || IsLate(t, now, limits))
            && (t1.state == Initiated ==> t1 == t && !IsLate(t, now, limits))
            && (IsLate(t, now, limits) ==> t1 == t.(state := Abandoned))
  {
    if t.state == Pending ==> t.ourPsbt.Some? {
      AbandonsExactly(t, now, c, limits);
    }
  }

  lemma {:induction false} SelectAll(s: seq<Numbered>, final: bool)
    ensures forall x :: x in Select(s, final) <==>
                          x in s && (x.trade.state in {Abandoned, Success, Failed} <==> final)
  {
    if s != [] {
      var k := |s| - 1;
      SelectAll(s[..k], final);
      assert s == s[..k] + [s[k]];
    }
  }

  lemma {:induction false} ArchiveAllFrom(me: string, items: seq<Numbered>)
    ensures forall a :: a in ArchiveAll(me, items) ==>
                          exists x :: x in items && a.serial == x.serial && a.info.state == x.trade.state
  {
    if items != [] {
      var k := |items| - 1;
      ArchiveAllFrom(me, items[..k]);
      forall a | a in ArchiveAll(me, items)
        ensures exists x :: x in items && a.serial == x.serial && a.info.state == x.trade.state
      {
        if a in ArchiveAll(me, items[..k]) {
          var x :| x in items[..k] && a.serial == x.serial && a.info.state == x.trade.state;
          assert x in items;
        } else {
          assert items[k] in items;
        }
      }
    }
  }

  /**
   * After an update no trade on the list is late or final; every late one is
   * archived as abandoned and awaits its handler; and what is archived as
   * abandoned was late, unless it was abandoned before.
   */
  lemma TickAbandons(n: Node, now: int, checks: nat -> ChainCheck, limits: Limits)
    ensures var m := UpdateAndArchive(n, now, checks, limits);
            && (forall i :: 0 <= i < |m.trades| ==>
                  m.trades[i].trade.state in {Initiated, Pending} && !IsLate(m.trades[i].trade, now, limits))
            && (forall i :: 0 <= i < |n.trades| && IsLate(n.trades[i].trade, now, limits) ==>
                  && Finalised(n.trades[i].(trade := n.trades[i].trade.(state := Abandoned))) in m.jobs
                  && WasArchived(m.archive, n.trades[i].serial, Abandoned))
            && (forall k :: |n.archive| <= k < |m.archive| && m.archive[k].info.state == Abandoned ==>
                  exists i :: 0 <= i < |n.trades| && n.trades[i].serial == m.archive[k].serial
                              && (n.trades[i].trade.state == Abandoned || IsLate(n.trades[i].trade, now, limits)))
  {
    hide Select, HandleAll, ArchiveAll, Updated, GetPublicInfo, IsLate;
    var m := UpdateAndArchive(n, now, checks, limits);
    var updated := UpdateEach(n.trades, now, checks, limits);
    forall i | 0 <= i < |n.trades|
      ensures UpdatesTo(n.trades[i].trade, updated[i].trade, now, limits)
    {
      UpdatedAbandons(n.trades[i].trade, now, checks(i), limits);
    }
    SelectAll(updated, true);
    SelectAll(updated, false);
    StaysInTime(n, m, updated, now, limits);
    LateIsArchived(n, m, updated, now, limits);
    AbandonedWasLate(n, m, updated, now, limits);
  }

  lemma InfoHasState(me: string, t: TradeState)
    ensures GetPublicInfo(me, t).state == t.state
  {
  }

  predicate WasArchived(archive: seq<Archived>, serial: nat, state: State) {
    exists k :: 0 <= k < |archive| && archive[k].serial == serial && archive[k].info.state == state
  }

  predicate UpdatesTo(t: TradeState, t1: TradeState, now: int, limits: Limits) {
    && (t1.state == Abandoned <==> t.state == Abandoned || IsLate(t, now, limits))
    && (t1.state == Initiated ==> t1 == t && !IsLate(t, now, limits))
    && (IsLate(t, now, limits) ==> t1 == t.(state := Abandoned))
  }

  /** All trades of a list, as they are after an update. */
  ghost predicate AllUpdate(n: Node, updated: seq<Numbered>, now: int, limits: Limits) {
    |updated| == |n.trades|
    && forall i :: 0 <= i < |updated| ==>
         updated[i].serial == n.trades[i].serial && UpdatesTo(n.trades[i].trade, updated[i].trade, now, limits)
  }

  lemma StaysInTime(n: Node, m: Node, updated: seq<Numbered>, now: int, limits: Limits)
    requires AllUpdate(n, updated, now, limits) && m.trades == Select(updated, false)
    requires forall x :: x in m.trades <==> x in updated && x.trade.state !in {Abandoned, Success, Failed}
    ensures forall i :: 0 <= i < |m.trades| ==>
              m.trades[i].trade.state in {Initiated, Pending} && !IsLate(m.trades[i].trade, now, limits)
  {
    hide Select;
    forall i | 0 <= i < |m.trades|
      ensures m.trades[i].trade.state in {Initiated, Pending} && !IsLate(m.trades[i].trade, now, limits)
    {
      assert m.trades[i] in updated;
    }
  }

  lemma LateIsArchived(n: Node, m: Node, updated: seq<Numbered>, now: int, limits: Limits)
    requires AllUpdate(n, updated, now, limits)
    requires var final := Select(updated, true);
             && m.jobs == n.jobs + HandleAll(final) && m.archive == n.archive + ArchiveAll(n.account, final)
             && forall x :: x in final <==> x in updated && x.trade.state in {Abandoned, Success, Failed}
    ensures forall i :: 0 <= i < |n.trades| && IsLate(n.trades[i].trade, now, limits) ==>
              && Finalised(n.trades[i].(trade := n.trades[i].trade.(state := Abandoned))) in m.jobs
              && WasArchived(m.archive, n.trades[i].serial, Abandoned)
  {
    hide Select, HandleAll, ArchiveAll, IsLate, GetPublicInfo;
    var final := Select(updated, true);
    HandleAllIs(final);
    ArchiveAllHas(n.account, final);
    forall i | 0 <= i < |n.trades| && IsLate(n.trades[i].trade, now, limits)
      ensures Finalised(n.trades[i].(trade := n.trades[i].trade.(state := Abandoned))) in m.jobs
      ensures WasArchived(m.archive, n.trades[i].serial, Abandoned)
    {
      var x := updated[i];
      assert x == n.trades[i].(trade := n.trades[i].trade.(state := Abandoned)) && x in updated;
      var j :| 0 <= j < |final| && final[j] == x;
      assert m.jobs[|n.jobs| + j] == Finalised(x);
      var a := Archived(x.serial, GetPublicInfo(n.account, x.trade));
      assert a in ArchiveAll(n.account, final) && a in m.archive;
      var k :| 0 <= k < |m.archive| && m.archive[k] == a;
      assert m.archive[k].info.state == Abandoned by { InfoHasState(n.account, x.trade); }
    }
  }

  lemma AbandonedWasLate(n: Node, m: Node, updated: seq<Numbered>, now: int, limits: Limits)
    requires AllUpdate(n, updated, now, limits)
    requires var final := Select(updated, true);
             && m.archive == n.archive + ArchiveAll(n.account, final) && forall x :: x in final ==> x in updated
    ensures forall k :: |n.archive| <= k < |m.archive| && m.archive[k].info.state == Abandoned ==>
              exists i :: 0 <= i < |n.trades| && n.trades[i].serial == m.archive[k].serial
                          && (n.trades[i].trade.state == Abandoned || IsLate(n.trades[i].trade, now, limits))
  {
    hide Select, ArchiveAll, IsLate;
    var final := Select(updated, true);
    ArchiveAllFrom(n.account, final);
    forall k | |n.archive| <= k < |m.archive| && m.archive[k].info.state == Abandoned
      ensures exists i :: 0 <= i < |n.trades| && n.trades[i].serial == m.archive[k].serial
                          && (n.trades[i].trade.state == Abandoned || IsLate(n.trades[i].trade, now, limits))
    {
      var a := m.archive[k];
      assert a in ArchiveAll(n.account, final);
      var x :| x in final && a.serial == x.serial && a.info.state == x.trade.state;
      var i :| 0 <= i < |updated| && updated[i] == x;
      assert n.trades[i].serial == a.serial;
    }
  }

  /** A trade as it is when it is added: nothing but the terms, the counterparty and the time. */
  predicate IsFresh(t: TradeState, units: UInt64, counterparty: string, now: int) {
    && t.state == Initiated && t.startTime == now && t.units == units && t.counterparty == counterparty
    && t.ourPsbt.None? && t.theirPsbt.None? && t.conflictHeight.None?
  }

  /** The clock of a trade starts when it is added, by the taker with the order and units they take. */
  lemma TakeStartsNow(w: World, n: Node, o: Order, units: Int64, now: int, rpc: Rpc)
    ensures var m := Step(w, n, TakeOrder(o, units, now, rpc));
            m.trades == n.trades
            || (|m.trades| == |n.trades| + 1 && n.trades <= m.trades
                && var t := m.trades[|n.trades|].trade;
                t.order == o && IsFresh(t, if units < 0 then units + TWO_64 else units, o.account.GetOr(""), now))
  {
    hide HasReply, CheckOrder, ReplyLog;
    var t := NewTrade(o, ToUInt64(units), o.account.GetOr(""), now);
    FirstReplyIsFresh(w, n.account, t, n.wallet, rpc);
  }

  lemma FirstReplyIsFresh(w: World, me: string, t: TradeState, wallet: set<OutPoint>, rpc: Rpc)
    requires IsFresh(t, t.units, t.counterparty, t.startTime) && t.sellerData.None?
    ensures UsableSellerData(me, t)
    ensures var r := HasReply(w, me, t, wallet, rpc).trade;
            r.order == t.order && IsFresh(r, t.units, t.counterparty, t.startTime)
  {
  }

  /** And by the maker, with the units and the sender of the message. */
  lemma TakenStartsNow(n: Node, i: nat, now: int)
    requires i < |n.jobs| && n.jobs[i].Taken? && n.jobs[i].msg.takingOrder.Some?
    ensures var (m, Taken(o, msg)) := (OrderTaken(n, i, now), n.jobs[i]);
            m.trades == n.trades
            || (|m.trades| == |n.trades| + 1 && n.trades <= m.trades
                && var t := m.trades[|n.trades|].trade;
                t.order == o && IsFresh(t, msg.takingOrder.value.units, msg.counterparty, now))
  {
    hide CheckOrder;
  }

  // ---------------------------------------------------------------------------
  // Over whole runs.

  lemma ReplyIsNotFinal(w: World, me: string, t: TradeState, wallet: set<OutPoint>, rpc: Rpc)
    requires t.state in {Initiated, Pending}
    ensures Reply(w, me, t, wallet, rpc).trade.state in {Initiated, Pending}
  {
    hide SellerSigns, BuyerBuilds;
  }

  lemma StepKeepsNoneFinal(w: World, n: Node, e: Event)
    requires NoneFinal(n)
    ensures NoneFinal(Step(w, n, e))
  {
    hide Take, Deliver, ContinueJob, UpdateAndArchive, Reply, HandleMessage;
    if !n.crashed {
      match e
      case TakeOrder(o, units, now, rpc) =>
        TakeEffect(w, n, o, units, now, rpc);
        ReplyIsNotFinal(w, n.account, NewTrade(o, ToUInt64(units), o.account.GetOr(""), now), n.wallet, rpc);
      case AnyMessage(msg, rpc) =>
        DeliverEffect(w, n, msg, rpc);
        var i := FindMatch(n.trades, msg, 0);
        if i < |n.trades| {
          HandleExtends(n.account, n.trades[i].trade, msg);
          ReplyIsNotFinal(w, n.account, HandleMessage(n.account, n.trades[i].trade, msg), n.wallet, rpc);
        }
      case UpdateTick(now, checks, limits) => TickAbandons(n, now, checks, limits);
      case Continue(i, now, valid) => if i < |n.jobs| { ContinueIsNotFinal(n, i, now, valid); }
      case AddOrder(_) =>
      case CancelOrders(_) =>
      case TakingMessage(_) =>
    }
  }

  lemma ContinueIsNotFinal(n: Node, i: nat, now: int, valid: bool)
    requires NoneFinal(n) && i < |n.jobs|
    ensures NoneFinal(ContinueJob(n, i, now, valid))
  {
    hide Handle, CheckOrder, GetRole, CanUnlock, ReleaseSet;
    if n.jobs[i].Finalised? {
      HandleIs(n, i);
    }
  }

  lemma {:induction false} ActiveIsNotFinal(w: World, account: string, wallet: set<OutPoint>, events: seq<Event>)
    ensures NoneFinal(Run(w, NewNode(account, wallet), events))
  {
    if events != [] {
      var k := |events| - 1;
      ActiveIsNotFinal(w, account, wallet, events[..k]);
      hide NoneFinal, Step;
      StepKeepsNoneFinal(w, Run(w, NewNode(account, wallet), events[..k]), events[k]);
    }
  }

  /** At some update of a run a trade was on the list and late. */
  ghost predicate TimedOutAt(w: World, n: Node, events: seq<Event>, serial: nat, k: nat) {
    && k < |events| && events[k].UpdateTick?
    && var before := Run(w, n, events[..k]);
    exists i :: 0 <= i < |before.trades| && before.trades[i].serial == serial
                && IsLate(before.trades[i].trade, events[k].now, events[k].limits)
  }

  /** In every run, whatever is archived as abandoned was late at an update. */
  lemma {:induction false} AbandonedTimedOut(w: World, account: string, wallet: set<OutPoint>, events: seq<Event>,
                                             a: Archived) returns (k: nat)
    requires a in Run(w, NewNode(account, wallet), events).archive && a.info.state == Abandoned
    ensures TimedOutAt(w, NewNode(account, wallet), events, a.serial, k)
  {
    hide Step, UpdateAndArchive, IsLate;
    var n0 := NewNode(account, wallet);
    var l := |events| - 1;
    var n := Run(w, n0, events[..l]);
    if a in n.archive {
      k := AbandonedTimedOut(w, account, wallet, events[..l], a);
      assert events[..l][..k] == events[..k];
    } else {
      ActiveIsNotFinal(w, account, wallet, events[..l]);
      StepGrows(w, n, events[l]);
      TickArchives(w, n, events[l], a);
      k := l;
    }
  }

  lemma TickArchives(w: World, n: Node, e: Event, a: Archived)
    requires NoneFinal(n) && a in Step(w, n, e).archive && a !in n.archive && a.info.state == Abandoned
    ensures e.UpdateTick?
    ensures exists i :: 0 <= i < |n.trades| && n.trades[i].serial == a.serial
                        && IsLate(n.trades[i].trade, e.now, e.limits)
  {
    hide UpdateAndArchive, IsLate;
    StepGrows(w, n, e);
    TickAbandons(n, e.now, e.checks, e.limits);
    var m := UpdateAndArchive(n, e.now, e.checks, e.limits);
    var k :| 0 <= k < |m.archive| && m.archive[k] == a;
    assert k >= |n.archive|;
  }
}
