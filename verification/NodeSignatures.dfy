/**
 * Signatures of a whole node: what anybody can make of all PSBTs that it has
 * ever sent, in all of its trades.
 */
module NodeSignatures {
  import opened Amounts
  import opened Chain
  import opened Checker
  import opened Nodes
  import opened NodeLocks
  import opened NodeOrders
  import opened NodeTrades
  import opened Orders
  import opened OwnOrders
  import opened Psbts
  import opened Sums
  import opened TradeRules
  import opened TradeRuns
  import opened Wrappers

  predicate SendsPsbt(e: Entry) {
    e.Replied? && e.msg.psbt.Some? && e.msg.psbt.value.Encoded?
  }

  /** All PSBTs that a node has sent to anybody. */
  function AllSent(n: Node): set<Psbt> {
    set e | e in n.log && SendsPsbt(e) :: e.msg.psbt.value.psbt
  }

  /** A taker's trade that has gone on record as pending on a transaction, with the PSBT it has shared. */
  ghost predicate WasPendingOn(n: Node, t: TradeState, tx: Tx) {
    && GetRole(n.account, t) == Taker && t.state == Pending && t.ourPsbt.Some? && t.ourPsbt.value.tx == tx
    && exists m :: Replied(t, m) in n.log && m.psbt == Some(Encoded(t.ourPsbt.value))
  }

  /**
   * However others combine and sign what the node has sent in all its trades: a
   * signature of ours on a transaction means that a trade of ours, as the taker,
   * has become pending on that very transaction. An abandoned trade gives none.
   */
  lemma SignedMeansPending(w: World, n: Node, d: Derivation, i: nat) returns (t: TradeState)
    requires Sound(w, n) && Possible(w, n.account, AllSent(n), d) && i < |d.result.inputs|
    requires d.result.inputs[i].signed && w.ownerOf(d.result.tx.vin[i]) == n.account
    ensures WasPendingOn(n, t, d.result.tx) && TradeSound(w, n.account, n.log, t)
  {
    hide TradeSound, Possible, Sound, WasPendingOn, GetRole;
    SignaturesAreSeen(w, n.account, AllSent(n), d, i);
    var p :| p in AllSent(n) && p.tx == d.result.tx && p.inputs[i].signed;
    var e :| e in n.log && SendsPsbt(e) && e.msg.psbt.value.psbt == p;
    t := e.trade;
    SentAsTaker(w, n, e, i);
  }

  /** A sent PSBT with a signature of ours was sent by a taker, and with the trade pending. */
  lemma SentAsTaker(w: World, n: Node, e: Entry, i: nat)
    requires Sound(w, n) && e in n.log && SendsPsbt(e)
    requires i < |e.msg.psbt.value.psbt.inputs| && e.msg.psbt.value.psbt.inputs[i].signed
    ensures WasPendingOn(n, e.trade, e.msg.psbt.value.psbt.tx) && TradeSound(w, n.account, n.log, e.trade)
  {
    hide TradeSound, GetRole;
    var k :| 0 <= k < |n.log| && n.log[k] == e;
    assert EntrySound(w, n.account, n.log, n.log[k]);
    assert Replied(e.trade, e.msg) in n.log;
  }

  // ---------------------------------------------------------------------------
  // Where the trades are that were ever pending.

  /** A trade, as it was, has become one that is active, awaits its handler or was handled. */
  ghost predicate Placed(n: Node, t: TradeState) {
    || (exists i :: 0 <= i < |n.trades| && Extends(t, n.trades[i].trade))
    || (exists j :: 0 <= j < |n.jobs| && n.jobs[j].Finalised? && Extends(t, n.jobs[j].item.trade))
    || (exists k :: 0 <= k < |n.log| && n.log[k].Handled? && IsFinalised(n.log[k].trade) && Extends(t, n.log[k].trade))
  }

  ghost predicate AllPlaced(n: Node) {
    forall k :: 0 <= k < |n.log| && n.log[k].Replied? ==> Placed(n, n.log[k].trade)
  }

  /** A step in which trades stay where they are or move on. */
  ghost predicate KeepsPlaces(n: Node, m: Node) {
    && (forall i :: 0 <= i < |n.trades| ==> Placed(m, n.trades[i].trade))
    && (forall j :: 0 <= j < |n.jobs| && n.jobs[j].Finalised? ==> Placed(m, n.jobs[j].item.trade))
    && n.log <= m.log
  }

  lemma PlacedOn(n: Node, t: TradeState, t1: TradeState)
    requires Extends(t, t1) && Placed(n, t1)
    ensures Placed(n, t)
  {
    hide Extends, IsFinalised;
    if i :| 0 <= i < |n.trades| && Extends(t1, n.trades[i].trade) {
      ExtendsOn(t, t1, n.trades[i].trade);
    } else if j :| 0 <= j < |n.jobs| && n.jobs[j].Finalised? && Extends(t1, n.jobs[j].item.trade) {
      ExtendsOn(t, t1, n.jobs[j].item.trade);
    } else {
      var k :| 0 <= k < |n.log| && n.log[k].Handled? && IsFinalised(n.log[k].trade) && Extends(t1, n.log[k].trade);
      ExtendsOn(t, t1, n.log[k].trade);
    }
  }

  lemma PlaceKept(n: Node, m: Node, t: TradeState)
    requires KeepsPlaces(n, m) && Placed(n, t)
    ensures Placed(m, t)
  {
    hide Extends, IsFinalised;
    if i :| 0 <= i < |n.trades| && Extends(t, n.trades[i].trade) {
      PlacedOn(m, t, n.trades[i].trade);
    } else if j :| 0 <= j < |n.jobs| && n.jobs[j].Finalised? && Extends(t, n.jobs[j].item.trade) {
      PlacedOn(m, t, n.jobs[j].item.trade);
    } else {
      var k :| 0 <= k < |n.log| && n.log[k].Handled? && IsFinalised(n.log[k].trade) && Extends(t, n.log[k].trade);
      assert m.log[k] == n.log[k];
    }
  }

  /** The trades whose replies are new on record are active. */
  predicate RepliesAreActive(n: Node, m: Node) {
    forall k :: |n.log| <= k < |m.log| && m.log[k].Replied? ==>
      exists i :: 0 <= i < |m.trades| && m.trades[i].trade == m.log[k].trade
  }

  lemma AllPlacedKept(n: Node, m: Node)
    requires AllPlaced(n) && KeepsPlaces(n, m) && RepliesAreActive(n, m)
    ensures AllPlaced(m)
  {
    hide Placed, KeepsPlaces, Extends;
    forall k | 0 <= k < |m.log| && m.log[k].Replied? ensures Placed(m, m.log[k].trade) {
      if k < |n.log| {
        assert n.log <= m.log by { LogKept(n, m); }
        assert m.log[k] == n.log[k];
        PlaceKept(n, m, n.log[k].trade);
      } else {
        var i :| 0 <= i < |m.trades| && m.trades[i].trade == m.log[k].trade;
        ActiveIsPlaced(m, i);
      }
    }
  }

  lemma LogKept(n: Node, m: Node)
    requires KeepsPlaces(n, m)
    ensures n.log <= m.log
  {
  }

  lemma ActiveIsPlaced(n: Node, i: nat)
    requires i < |n.trades|
    ensures Placed(n, n.trades[i].trade)
  {
    assert Extends(n.trades[i].trade, n.trades[i].trade);
  }

  lemma FinalisedIsPlaced(n: Node, j: nat)
    requires j < |n.jobs| && n.jobs[j].Finalised?
    ensures Placed(n, n.jobs[j].item.trade)
  {
    assert Extends(n.jobs[j].item.trade, n.jobs[j].item.trade);
  }

  /** Steps that keep all trades, and all trades that await their handlers. */
  lemma NothingMoves(n: Node, m: Node)
    requires n.trades <= m.trades && n.log <= m.log && RepliesAreActive(n, m) && AllPlaced(n)
    requires forall j :: 0 <= j < |n.jobs| && n.jobs[j].Finalised? ==> n.jobs[j] in m.jobs
    ensures AllPlaced(m)
  {
    hide Placed, AllPlaced;
    forall i | 0 <= i < |n.trades| ensures Placed(m, n.trades[i].trade) {
      ActiveIsPlaced(m, i);
    }
    forall j | 0 <= j < |n.jobs| && n.jobs[j].Finalised? ensures Placed(m, n.jobs[j].item.trade) {
      var k :| 0 <= k < |m.jobs| && m.jobs[k] == n.jobs[j];
      FinalisedIsPlaced(m, k);
    }
    AllPlacedKept(n, m);
  }

  lemma DeliverPlaced(w: World, n: Node, msg: Message, rpc: Rpc)
    requires AllPlaced(n)
    ensures AllPlaced(Deliver(w, n, msg, rpc))
  {
    hide Deliver, Reply, HandleMessage, ReplyLog, Placed, AllPlaced, Extends;
    var (m, i) := (Deliver(w, n, msg, rpc), FindMatch(n.trades, msg, 0));
    DeliverEffect(w, n, msg, rpc);
    DeliverRecords(w, n, msg, rpc);
    forall k | 0 <= k < |n.trades| ensures Placed(m, n.trades[k].trade) {
      ActiveIsPlaced(m, k);
      if k == i {
        PlacedOn(m, n.trades[k].trade, m.trades[k].trade);
      }
    }
    forall j | 0 <= j < |n.jobs| && n.jobs[j].Finalised? ensures Placed(m, n.jobs[j].item.trade) {
      FinalisedIsPlaced(m, j);
    }
    AllPlacedKept(n, m);
  }

  lemma ReplyLogTrades(r: Result, rpc: Rpc)
    ensures forall e :: e in ReplyLog(r, rpc) && e.Replied? ==> e.trade == r.trade
  {
  }

  /** A record that grows by entries whose replies are all of one active trade. */
  lemma GrownByReplies(n: Node, m: Node, entries: seq<Entry>, i: nat)
    requires m.log == n.log + entries && i < |m.trades|
    requires forall e :: e in entries && e.Replied? ==> e.trade == m.trades[i].trade
    ensures n.log <= m.log && RepliesAreActive(n, m)
  {
    forall k | |n.log| <= k < |m.log| && m.log[k].Replied? ensures m.trades[i].trade == m.log[k].trade {
      assert m.log[k] == entries[k - |n.log|];
    }
  }

  lemma DeliverRecords(w: World, n: Node, msg: Message, rpc: Rpc)
    ensures n.log <= Deliver(w, n, msg, rpc).log && RepliesAreActive(n, Deliver(w, n, msg, rpc))
  {
    hide Reply, HandleMessage, ReplyLog, RepliesAreActive;
    var (m, i) := (Deliver(w, n, msg, rpc), FindMatch(n.trades, msg, 0));
    if i < |n.trades| {
      var r := Reply(w, n.account, HandleMessage(n.account, n.trades[i].trade, msg), n.wallet, rpc);
      ReplyLogTrades(r, rpc);
      GrownByReplies(n, m, [Received(msg)] + ReplyLog(r, rpc), i);
    } else {
      NoReplies(n, m);
    }
  }

  lemma NoReplies(n: Node, m: Node)
    requires n.log <= m.log && forall k :: |n.log| <= k < |m.log| ==> !m.log[k].Replied?
    ensures RepliesAreActive(n, m)
  {
  }

  lemma TakePlaced(w: World, n: Node, o: Order, units: Int64, now: int, rpc: Rpc)
    requires AllPlaced(n)
    ensures AllPlaced(Take(w, n, o, units, now, rpc))
  {
    hide Take, Reply, AllPlaced;
    TakeEffect(w, n, o, units, now, rpc);
    TakeRecords(w, n, o, units, now, rpc);
    NothingMoves(n, Take(w, n, o, units, now, rpc));
  }

  lemma TakeRecords(w: World, n: Node, o: Order, units: Int64, now: int, rpc: Rpc)
    ensures n.log <= Take(w, n, o, units, now, rpc).log && RepliesAreActive(n, Take(w, n, o, units, now, rpc))
  {
    hide Take, HasReply, UsableSellerData, ReplyLog, RepliesAreActive;
    var (m, t) := (Take(w, n, o, units, now, rpc), NewTrade(o, ToUInt64(units), o.account.GetOr(""), now));
    var r := Reply(w, n.account, t, n.wallet, rpc);
    var msg := (if r.outcome.Sent? then r.outcome.msg else BasicMessage(t))
                   .(takingOrder := Some(TakingOrder(o.id.GetOr(0), t.units)));
    NewIsUsable(n.account, t);
    TakeIs(w, n, o, units, now, rpc, t, r, msg);
    ReplyLogTrades(r.(outcome := Sent(msg)), rpc);
    if m.log == n.log {
      NoReplies(n, m);
    } else {
      GrownByReplies(n, m, ReplyLog(r.(outcome := Sent(msg)), rpc), |n.trades|);
    }
  }

  lemma NewIsUsable(me: string, t: TradeState)
    requires t.sellerData.None?
    ensures UsableSellerData(me, t)
  {
  }

  /** A trade is active, or final and awaits its handler. */
  lemma PartedIsPlaced(n: Node, m: Node, final: seq<Numbered>, x: Numbered)
    requires |m.jobs| == |n.jobs| + |final|
    requires forall j :: 0 <= j < |final| ==> m.jobs[|n.jobs| + j] == Finalised(final[j])
    requires if IsFinalised(x.trade) then x in final else x in m.trades
    ensures Placed(m, x.trade)
  {
    hide Placed, IsFinalised;
    if IsFinalised(x.trade) {
      var j :| 0 <= j < |final| && final[j] == x;
      FinalisedIsPlaced(m, |n.jobs| + j);
    } else {
      var j :| 0 <= j < |m.trades| && m.trades[j] == x;
      ActiveIsPlaced(m, j);
    }
  }

  lemma UpdateTickPlaced(n: Node, now: int, checks: nat -> ChainCheck, limits: Limits)
    requires AllPlaced(n)
    ensures AllPlaced(UpdateAndArchive(n, now, checks, limits))
  {
    hide Select, HandleAll, Updated, Placed, AllPlaced, Extends, IsFinalised;
    var m := UpdateAndArchive(n, now, checks, limits);
    var updated := UpdateEach(n.trades, now, checks, limits);
    var final := Select(updated, true);
    SelectFrom(updated, true);
    SelectFrom(updated, false);
    HandleAllIs(final);
    forall i | 0 <= i < |n.trades| ensures Placed(m, n.trades[i].trade) {
      UpdatedKeepsOrder(n.trades[i].trade, now, checks(i), limits);
      assert updated[i] in updated;
      PartedIsPlaced(n, m, final, updated[i]);
      PlacedOn(m, n.trades[i].trade, updated[i].trade);
    }
    forall j | 0 <= j < |n.jobs| && n.jobs[j].Finalised? ensures Placed(m, n.jobs[j].item.trade) {
      FinalisedIsPlaced(m, j);
    }
    AllPlacedKept(n, m);
  }

  lemma HandlePlaced(n: Node, i: nat)
    requires AllPlaced(n) && Exclusive(n) && i < |n.jobs| && n.jobs[i].Finalised?
    ensures AllPlaced(Handle(n, i))
  {
    hide Handle, Placed, AllPlaced, Exclusive, GetRole, CanUnlock, NextJobs, Extends;
    var (m, t) := (Handle(n, i), n.jobs[i].item.trade);
    HandleIs(n, i);
    ShapeOf(n, i);
    if m.log == n.log {
      NothingMoves(n, m);
    } else {
      forall k | 0 <= k < |n.trades| ensures Placed(m, n.trades[k].trade) {
        ActiveIsPlaced(m, k);
      }
      forall j | 0 <= j < |n.jobs| && n.jobs[j].Finalised? ensures Placed(m, n.jobs[j].item.trade) {
        if j == i {
          HandledIsPlaced(m, |n.log|);
        } else {
          var k := if j < i then j else j - 1 + |NextJobs(n.account, t)|;
          assert m.jobs[k] == n.jobs[j];
          FinalisedIsPlaced(m, k);
        }
      }
      AllPlacedKept(n, m);
    }
  }

  lemma HandledIsPlaced(n: Node, k: nat)
    requires k < |n.log| && n.log[k].Handled? && IsFinalised(n.log[k].trade)
    ensures Placed(n, n.log[k].trade)
  {
    assert Extends(n.log[k].trade, n.log[k].trade);
  }

  lemma OtherJobsStay(jobs: seq<Job>, i: nat, next: seq<Job>)
    requires i < |jobs|
    ensures forall j :: 0 <= j < |jobs| && j != i ==> jobs[j] in jobs[..i] + next + jobs[i + 1..]
  {
    var after := jobs[..i] + next + jobs[i + 1..];
    forall j | 0 <= j < |jobs| && j != i ensures jobs[j] in after {
      assert after[if j < i then j else j - 1 + |next|] == jobs[j];
    }
  }

  lemma ContinuePlaced(n: Node, i: nat, now: int, valid: bool)
    requires AllPlaced(n) && Exclusive(n) && i < |n.jobs|
    ensures AllPlaced(ContinueJob(n, i, now, valid))
  {
    hide AllPlaced, Exclusive, OrderTaken, UnlockFor, Handle, Recreate, ReleaseSet;
    match n.jobs[i]
    case Finalised(_) => HandlePlaced(n, i);
    case Taken(_, msg) => if msg.takingOrder.Some? { OrderTakenPlaced(n, i, now); }
    case Refused(id) => UnlockPlaced(n, i, id);
    case Releasing(_) => JobDone(n, i, [], ContinueJob(n, i, now, valid));
    case Recreating(_, _) => RecreatePlaced(n, i, valid);
  }

  /** A job other than one that hands a trade on gives way to another, or to none. */
  lemma JobDone(n: Node, i: nat, next: seq<Job>, m: Node)
    requires AllPlaced(n) && i < |n.jobs| && !n.jobs[i].Finalised? && n.trades <= m.trades && n.log <= m.log
    requires m.jobs == n.jobs[..i] + next + n.jobs[i + 1..] && RepliesAreActive(n, m)
    ensures AllPlaced(m)
  {
    hide AllPlaced;
    OtherJobsStay(n.jobs, i, next);
    NothingMoves(n, m);
  }

  lemma OrderTakenPlaced(n: Node, i: nat, now: int)
    requires AllPlaced(n) && i < |n.jobs| && n.jobs[i].Taken? && n.jobs[i].msg.takingOrder.Some?
    ensures AllPlaced(OrderTaken(n, i, now))
  {
    hide AllPlaced, CheckOrder;
    var m := OrderTaken(n, i, now);
    var refused := Refused(n.jobs[i].order.id.GetOr(0));
    JobLists(n, i, refused);
    JobDone(n, i, if m.trades == n.trades then [refused] else [], m);
  }

  lemma UnlockPlaced(n: Node, i: nat, id: UInt64)
    requires AllPlaced(n) && i < |n.jobs| && n.jobs[i].Refused?
    ensures AllPlaced(UnlockFor(n, i, id, []))
  {
    hide AllPlaced, CanUnlock, Unlocked;
    var m := UnlockFor(n, i, id, []);
    if m.jobs == n.jobs {
      NothingMoves(n, m);
    } else {
      JobDone(n, i, [], m);
    }
  }

  lemma RecreatePlaced(n: Node, i: nat, valid: bool)
    requires AllPlaced(n) && i < |n.jobs| && n.jobs[i].Recreating?
    ensures AllPlaced(Recreate(n, i, valid))
  {
    hide AllPlaced;
    JobLists(n, i, n.jobs[i]);
    JobDone(n, i, [], Recreate(n, i, valid));
  }

  lemma StepPlaced(w: World, n: Node, e: Event)
    requires AllPlaced(n) && Exclusive(n)
    ensures AllPlaced(Step(w, n, e))
  {
    hide AllPlaced, Exclusive, Take, Deliver, UpdateAndArchive, ContinueJob;
    if !n.crashed {
      match e
      case AddOrder(o) => NothingMoves(n, Post(n, o));
      case CancelOrders(ids) => NothingMoves(n, Drop(n, ids));
      case TakeOrder(o, units, now, rpc) => TakePlaced(w, n, o, units, now, rpc);
      case TakingMessage(msg) => NothingMoves(n, StartTaking(n, msg));
      case AnyMessage(msg, rpc) => DeliverPlaced(w, n, msg, rpc);
      case UpdateTick(now, checks, limits) => UpdateTickPlaced(n, now, checks, limits);
      case Continue(i, now, valid) => if i < |n.jobs| { ContinuePlaced(n, i, now, valid); }
    }
  }

  /** In every run, every trade that has ever sent something is still accounted for. */
  lemma {:induction false} RepliesAreAccountedFor(w: World, account: string, wallet: set<OutPoint>, events: seq<Event>)
    requires forall e :: e in events ==> UnlockedAdds(e)
    ensures AllPlaced(Run(w, NewNode(account, wallet), events))
  {
    hide AllPlaced, Exclusive, Step;
    if events == [] {
      NothingSentYet(account, wallet);
    } else {
      var k := |events| - 1;
      RepliesAreAccountedFor(w, account, wallet, events[..k]);
      OrdersAreExclusive(w, account, wallet, events[..k]);
      StepPlaced(w, Run(w, NewNode(account, wallet), events[..k]), events[k]);
    }
  }

  lemma NothingSentYet(account: string, wallet: set<OutPoint>)
    ensures AllPlaced(NewNode(account, wallet))
  {
  }

  // ---------------------------------------------------------------------------

  /** A transaction spends no two outputs with the same name, of which only one is unspent. */
  predicate SpendsNameOnce(w: World, me: string, tx: Tx) {
    forall o, o' :: o in tx.vin && o' in tx.vin && w.nameOf(o) == Some(me) && w.nameOf(o') == Some(me) ==> o == o'
  }

  /** Two trades of ours on one transaction claim a coin in common. */
  lemma SharedClaim(w: World, me: string, t: TradeState, t': TradeState) returns (o: OutPoint)
    requires Consistent(w, me, t) && Consistent(w, me, t') && t.counterparty != me && t'.counterparty != me
    requires t.ourPsbt.Some? && t'.ourPsbt.Some? && t.ourPsbt.value.tx == t'.ourPsbt.value.tx
    requires SpendsNameOnce(w, me, t.ourPsbt.value.tx)
    ensures o in Claims(w, me, t) && o in Claims(w, me, t')
  {
    hide Consistent;
    if GetOrderType(me, t) == Bid {
      BuyersSpendOwnCoins(w, me, t);
      if GetOrderType(me, t') == Ask {
        NameIsSpent(w, me, t');
      }
      o :| o in t.ourPsbt.value.tx.vin && w.nameOf(o).None?;
    } else {
      NameIsSpent(w, me, t);
      if GetOrderType(me, t') == Bid {
        BuyersSpendOwnCoins(w, me, t');
      } else {
        NameIsSpent(w, me, t');
      }
      o := t.sellerData.value.nameOutput.value;
    }
  }

  lemma BuyersSpendOwnCoins(w: World, me: string, t: TradeState)
    requires Consistent(w, me, t) && GetOrderType(me, t) == Bid && t.ourPsbt.Some? && t.counterparty != me
    ensures forall o :: o in t.ourPsbt.value.tx.vin ==> w.nameOf(o) != Some(me)
    ensures exists o :: o in t.ourPsbt.value.tx.vin && w.nameOf(o).None?
  {
    hide PaysSeller, AllButOneChanged, Signs, OutputsVerdict, OnlyUpdates, GetTotalSat;
    var unsigned, nameIn :| BuyerSigned(w, me, t, unsigned, nameIn);
    var o :| o in t.ourPsbt.value.tx.vin && o != nameIn;
  }

  lemma NameIsSpent(w: World, me: string, t: TradeState)
    requires Consistent(w, me, t) && GetOrderType(me, t) == Ask && t.ourPsbt.Some?
    ensures t.sellerData.Some? && t.sellerData.value.nameOutput.Some?
    ensures var out := t.sellerData.value.nameOutput.value; out in t.ourPsbt.value.tx.vin && w.nameOf(out) == Some(me)
  {
    var out := t.sellerData.value.nameOutput.value;
    var i :| IsFirstInput(t.theirPsbt.value.psbt.tx, out, i);
  }

  /** What a trade claims stays what it claims. */
  lemma ClaimsStay(w: World, me: string, t: TradeState, later: TradeState)
    requires Extends(t, later) && t.ourPsbt.Some? && t.sellerData.Some?
    ensures Claims(w, me, later) == Claims(w, me, t)
  {
  }

  /**
   * While a trade of the node is initiated, its transaction is not signed by us
   * in anybody's hands, whatever else the node has sent in other trades: unless
   * an earlier trade of ours, as its taker, on that very transaction has failed.
   * `SameTransaction` is a run in which that happens.
   */
  lemma InitiatedMeansNotSigned(w: World, outside: set<OutPoint>, n: Node, i: nat, d: Derivation)
    requires Sound(w, n) && Owned(w, outside, n) && AllPlaced(n) && i < |n.trades|
    requires n.trades[i].trade.state == Initiated && n.trades[i].trade.ourPsbt.Some?
    requires Possible(w, n.account, AllSent(n), d) && d.result.tx == n.trades[i].trade.ourPsbt.value.tx
    requires SpendsNameOnce(w, n.account, d.result.tx)
    ensures NoneSignedBy(w, n.account, d.result)
            || exists s, t :: Handled(s, t) in n.log && t.state == Failed && t.ourPsbt.Some?
                              && t.ourPsbt.value.tx == d.result.tx && GetRole(n.account, t) == Taker
  {
    hide Sound, Owned, Possible, TradeSound, AllPlaced, Placed, Claims;
    if k :| 0 <= k < |d.result.inputs| && d.result.inputs[k].signed && w.ownerOf(d.result.tx.vin[k]) == n.account {
      var t' := SignedMeansPending(w, n, d, k);
      var t := n.trades[i].trade;
      SoundTrades(w, n, i, t');
      var o := SharedClaim(w, n.account, t, t');
      PendingIsPlaced(n, t', d.result.tx);
      FailedOnly(w, outside, n, i, t', o);
    }
  }

  lemma SoundTrades(w: World, n: Node, i: nat, t: TradeState)
    requires Sound(w, n) && i < |n.trades| && TradeSound(w, n.account, n.log, t)
    ensures Consistent(w, n.account, n.trades[i].trade) && n.trades[i].trade.counterparty != n.account
    ensures Consistent(w, n.account, t) && t.counterparty != n.account
    ensures t.ourPsbt.Some? ==> t.sellerData.Some?
  {
    hide SellerSigned, Heard, Vetted;
    assert TradeSound(w, n.account, n.log, n.trades[i].trade);
    if t.ourPsbt.Some? && GetOrderType(n.account, t) == Ask {
      NameIsSpent(w, n.account, t);
    }
  }

  lemma PendingIsPlaced(n: Node, t: TradeState, tx: Tx)
    requires AllPlaced(n) && WasPendingOn(n, t, tx)
    ensures Placed(n, t)
  {
    hide Placed;
    var m :| Replied(t, m) in n.log;
    var k :| 0 <= k < |n.log| && n.log[k] == Replied(t, m);
  }

  /** A pending trade that claims a coin of an active initiated one has failed, and was handled. */
  lemma FailedOnly(w: World, outside: set<OutPoint>, n: Node, i: nat, t': TradeState, o: OutPoint)
    requires Owned(w, outside, n) && Placed(n, t') && i < |n.trades| && n.trades[i].trade.state == Initiated
    requires t'.state == Pending && t'.ourPsbt.Some? && t'.sellerData.Some?
    requires o in Claims(w, n.account, n.trades[i].trade) && o in Claims(w, n.account, t')
    ensures exists s, t :: Handled(s, t) in n.log && t.state == Failed && t.ourPsbt == t'.ourPsbt
                           && GetRole(n.account, t) == GetRole(n.account, t')
  {
    hide Claims, Sum;
    assert CoinOwned(w, outside, n, o);
    var f := TradeClaims(w, n.account, o);
    SumIncludes(f, n.trades, i);
    if j :| 0 <= j < |n.trades| && Extends(t', n.trades[j].trade) {
      ClaimsStay(w, n.account, t', n.trades[j].trade);
      SumIncludesTwo(f, n.trades, if i < j then i else j, if i < j then j else i);
    } else if j :| 0 <= j < |n.jobs| && n.jobs[j].Finalised? && Extends(t', n.jobs[j].item.trade) {
      ClaimsStay(w, n.account, t', n.jobs[j].item.trade);
      SumIncludes(JobClaims(w, n.account, o), n.jobs, j);
    } else {
      var k :| 0 <= k < |n.log| && n.log[k].Handled? && IsFinalised(n.log[k].trade) && Extends(t', n.log[k].trade);
      var Handled(s, t) := n.log[k];
      assert Handled(s, t) in n.log;
      if t.state == Success {
        ClaimsStay(w, n.account, t', t);
        SumIncludes(SpentClaims(w, n.account, o), n.log, k);
      }
    }
  }
}
