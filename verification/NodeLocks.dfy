/**
 * Ownership of wallet locks: what a trade claims is locked, by it alone, and
 * freed with it. The one coin that is not a trade's own and may be freed with
 * it is the counterparty's name output, if somebody has locked it in this wallet.
 */
module NodeLocks {
  import opened Amounts
  import opened Chain
  import opened Checker
  import opened Nodes
  import opened NodeOrders
  import opened NodeTrades
  import opened Orders
  import opened OwnOrders
  import opened Psbts
  import opened Sums
  import opened TradeRules
  import opened TradeRuns
  import opened Wrappers

  /** The coins a trade has locked: a seller's name output, or the coins a buyer's transaction is funded with. */
  function Claims(w: World, me: string, t: TradeState): set<OutPoint> {
    if GetOrderType(me, t) == Ask then
      if t.sellerData.Some? && t.sellerData.value.nameOutput.Some? then {t.sellerData.value.nameOutput.value} else {}
    else if t.ourPsbt.Some? then set o | o in t.ourPsbt.value.tx.vin && w.nameOf(o).None?
    else {}
  }

  /** The name input of a buyer's transaction. */
  function NameInputs(w: World, me: string, t: TradeState): set<OutPoint> {
    if GetOrderType(me, t) == Bid && t.ourPsbt.Some? then set o | o in t.ourPsbt.value.tx.vin && w.nameOf(o).Some?
    else {}
  }

  /** Coins that carry no name, or our own: the only ones that the program locks. */
  predicate IsOwnCoin(w: World, me: string, o: OutPoint) {
    w.nameOf(o).None? || w.nameOf(o) == Some(me)
  }

  ghost predicate OwnCoins(w: World, me: string, coins: set<OutPoint>) {
    forall o :: o in coins ==> IsOwnCoin(w, me, o)
  }

  /** The name input of a transaction that a buyer has built, signed and discards for its signatures. */
  ghost function Discarded(w: World, me: string, t: TradeState, locked: set<OutPoint>, rpc: Rpc): set<OutPoint>
    requires UsableSellerData(me, t)
  {
    if t.state == Initiated && GetOrderType(me, t) == Bid && t.sellerData.Some? && t.ourPsbt.None?
       && rpc.buyerView.Some? && CheckForBuyerTrade(rpc.buyerView.value).Some?
    then
      var (p, nameIn) := (GetParams(me, t), CheckForBuyerTrade(rpc.buyerView.value).value);
      var total := GetTotalSat(p.price, p.units);
      if !total.Fits? then {}
      else
        var built := ConstructTransaction(w, p, t.sellerData.value, total.sat, nameIn, locked, rpc).0;
        if built.Some? && rpc.sign(built.value).Some? && !AllButOneChanged(built.value, rpc.sign(built.value).value)
        then {nameIn} else {}
    else {}
  }

  /** An exception that comes after a coin was locked and before the trade has recorded it. */
  ghost predicate ThrowsAfterLock(w: World, me: string, t: TradeState, locked: set<OutPoint>, rpc: Rpc)
    requires UsableSellerData(me, t)
  {
    && t.state == Initiated
    && if GetOrderType(me, t) == Ask then
         && t.sellerData.None? && rpc.nameShow.Some? && !rpc.lockRefused && rpc.nameShow.value !in locked
         && rpc.newAddresses.None?
       else
         && t.sellerData.Some? && t.ourPsbt.None?
         && rpc.buyerView.Some? && CheckForBuyerTrade(rpc.buyerView.value).Some?
         && var (p, sd) := (GetParams(me, t), t.sellerData.value);
         && var total := GetTotalSat(p.price, p.units);
         && total.Fits?
         && var chiPart := rpc.fund(sd.chiAddress.value, total.sat);
         && chiPart.Some?
         && (!rpc.buildNamePart
             || var name := NamePart(CheckForBuyerTrade(rpc.buyerView.value).value, sd.nameAddress.value,
                                     GetXayaName(p.seller), GetNameUpdateValue(w, p));
                var built := rpc.join(chiPart.value, name);
                built.None? || rpc.sign(built.value).None?)
  }

  /** What a reply has locked is what the trade newly claims, and was free before; some coins may have been freed. */
  predicate LocksBut(w: World, me: string, t: TradeState, locked: set<OutPoint>, r: Result, freed: set<OutPoint>) {
    && Claims(w, me, t) <= Claims(w, me, r.trade)
    && (Claims(w, me, r.trade) - Claims(w, me, t)) !! locked
    && r.locked == (locked - freed) + (Claims(w, me, r.trade) - Claims(w, me, t))
  }

  predicate LocksItsClaims(w: World, me: string, t: TradeState, locked: set<OutPoint>, r: Result) {
    LocksBut(w, me, t, locked, r, {})
  }

  lemma FinishClaims(w: World, me: string, t: TradeState, locked: set<OutPoint>, rpc: Rpc, verified: Option<OutPoint>)
    requires t.ourPsbt.Some?
    ensures var r := Finish(me, t, locked, rpc, verified);
            r.locked == locked && Claims(w, me, r.trade) == Claims(w, me, t)
  {
  }

  lemma BuiltClaims(w: World, me: string, t: TradeState, locked: set<OutPoint>, rpc: Rpc)
    requires Consistent(w, me, t) && LawfulAnswers(w, me, t, locked, rpc)
    requires t.sellerData.Some? && GetOrderType(me, t) == Bid
    requires BuyerBuilds(w, me, t, t.sellerData.value, locked, rpc).Built?
    ensures var b := BuyerBuilds(w, me, t, t.sellerData.value, locked, rpc);
            Claims(w, me, t.(ourPsbt := Some(b.signed))) == Inputs(b.signed.tx) - {b.nameIn}
  {
    hide BuyerBuilds, PaysSeller, AllButOneChanged, Signs;
    var b := BuyerBuilds(w, me, t, t.sellerData.value, locked, rpc);
    BuyerBuildsWell(w, me, t, locked, rpc);
    assert BuyerSigned(w, me, t.(ourPsbt := Some(b.signed)), b.unsigned, b.nameIn);
  }

  /**
   * A buyer that does not get as far as a good transaction: what is locked
   * afterwards is what was locked before, but for the name input of a discarded
   * one, if and only if no call throws after funding.
   */
  lemma NotBuiltLocks(w: World, me: string, t: TradeState, locked: set<OutPoint>, rpc: Rpc)
    requires UsableSellerData(me, t) && LawfulAnswers(w, me, t, locked, rpc) && t.state == Initiated
    requires t.sellerData.Some? && GetOrderType(me, t) == Bid && t.ourPsbt.None?
    requires BuyerBuilds(w, me, t, t.sellerData.value, locked, rpc).NotBuilt?
    ensures BuyerBuilds(w, me, t, t.sellerData.value, locked, rpc).locked == locked - Discarded(w, me, t, locked, rpc)
            <==> !ThrowsAfterLock(w, me, t, locked, rpc)
    ensures BuyerBuilds(w, me, t, t.sellerData.value, locked, rpc).locked == locked
            <==> !ThrowsAfterLock(w, me, t, locked, rpc) && Discarded(w, me, t, locked, rpc) !! locked
  {
    if rpc.buyerView.Some? && CheckForBuyerTrade(rpc.buyerView.value).Some? {
      var (p, sd) := (GetParams(me, t), t.sellerData.value);
      var total := GetTotalSat(p.price, p.units);
      var nameIn := CheckForBuyerTrade(rpc.buyerView.value).value;
      if total.Fits? && rpc.fund(sd.chiAddress.value, total.sat).Some? {
        FundingLocks(w, me, sd.chiAddress.value, total.sat, locked, rpc);
        var (built, locked1) := ConstructTransaction(w, p, sd, total.sat, nameIn, locked, rpc);
        if built.Some? && rpc.sign(built.value).Some? {
          BuiltTransaction(w, me, t.counterparty, p, sd, total.sat, nameIn, locked, rpc);
          SignedIsPartial(w, me, built.value, rpc.sign(built.value).value);
        }
      }
    }
  }

  lemma FundingLocks(w: World, me: string, addr: string, total: int, locked: set<OutPoint>, rpc: Rpc)
    requires Lawful(w, me, locked, rpc) && rpc.fund(addr, total).Some?
    ensures !(locked + Inputs(rpc.fund(addr, total).value.tx) <= locked)
  {
    var p := rpc.fund(addr, total).value;
    assert Funds(w, me, locked, addr, total, p);
    assert p.tx.vin[0] in Inputs(p.tx);
  }

  /**
   * A reply locks exactly what it records, if and only if no call throws between
   * the two, and frees nothing else if and only if no transaction is discarded
   * whose name input was locked in this wallet.
   */
  lemma ReplyLocksExactly(w: World, me: string, t: TradeState, locked: set<OutPoint>, rpc: Rpc)
    requires Consistent(w, me, t) && LawfulAnswers(w, me, t, locked, rpc)
    ensures var (r, freed) := (HasReply(w, me, t, locked, rpc), Discarded(w, me, t, locked, rpc));
            && (LocksBut(w, me, t, locked, r, freed) <==> !ThrowsAfterLock(w, me, t, locked, rpc))
            && (LocksItsClaims(w, me, t, locked, r) <==> !ThrowsAfterLock(w, me, t, locked, rpc) && freed !! locked)
  {
    if t.state != Initiated {
    } else if t.sellerData.None? {
    } else if t.ourPsbt.Some? {
      FinishClaims(w, me, t, locked, rpc, None);
    } else if GetOrderType(me, t) == Ask {
      SellerReplyLocks(w, me, t, locked, rpc);
    } else {
      BuyerReplyLocks(w, me, t, locked, rpc);
    }
  }

  lemma SellerReplyLocks(w: World, me: string, t: TradeState, locked: set<OutPoint>, rpc: Rpc)
    requires UsableSellerData(me, t) && t.state == Initiated && t.sellerData.Some? && t.ourPsbt.None?
    requires GetOrderType(me, t) == Ask
    ensures LocksItsClaims(w, me, t, locked, HasReply(w, me, t, locked, rpc)) && !ThrowsAfterLock(w, me, t, locked, rpc)
  {
    hide Finish, SellerSigns;
    if t.theirPsbt.Some? && SellerSigns(w, me, t, t.sellerData.value, t.theirPsbt.value, rpc).Ok? {
      var signed := SellerSigns(w, me, t, t.sellerData.value, t.theirPsbt.value, rpc).signed;
      FinishClaims(w, me, t.(ourPsbt := Some(signed)), locked, rpc, None);
    }
  }

  lemma BuyerReplyLocks(w: World, me: string, t: TradeState, locked: set<OutPoint>, rpc: Rpc)
    requires Consistent(w, me, t) && LawfulAnswers(w, me, t, locked, rpc)
    requires t.state == Initiated && t.sellerData.Some? && t.ourPsbt.None? && GetOrderType(me, t) == Bid
    ensures var (r, freed) := (HasReply(w, me, t, locked, rpc), Discarded(w, me, t, locked, rpc));
            && (LocksBut(w, me, t, locked, r, freed) <==> !ThrowsAfterLock(w, me, t, locked, rpc))
            && (LocksItsClaims(w, me, t, locked, r) <==> !ThrowsAfterLock(w, me, t, locked, rpc) && freed !! locked)
  {
    hide BuyerBuilds, Finish, BuyerSigned, SellerSigned, Discarded, ThrowsAfterLock;
    var b := BuyerBuilds(w, me, t, t.sellerData.value, locked, rpc);
    if b.Built? {
      BuyerBuildsWell(w, me, t, locked, rpc);
      BuiltClaims(w, me, t, locked, rpc);
      FinishClaims(w, me, t.(ourPsbt := Some(b.signed)), b.locked, rpc, Some(b.nameIn));
      BuiltThrowsNot(w, me, t, locked, rpc);
    } else {
      NotBuiltLocks(w, me, t, locked, rpc);
    }
  }

  lemma BuiltThrowsNot(w: World, me: string, t: TradeState, locked: set<OutPoint>, rpc: Rpc)
    requires UsableSellerData(me, t) && t.sellerData.Some? && t.ourPsbt.None? && GetOrderType(me, t) == Bid
    requires BuyerBuilds(w, me, t, t.sellerData.value, locked, rpc).Built?
    ensures !ThrowsAfterLock(w, me, t, locked, rpc) && Discarded(w, me, t, locked, rpc) == {}
  {
    hide AllButOneChanged, IsComplete;
  }

  // ---------------------------------------------------------------------------

  function TradeClaims(w: World, me: string, o: OutPoint): Numbered -> nat {
    (x: Numbered) => if o in Claims(w, me, x.trade) then 1 else 0
  }

  function JobClaims(w: World, me: string, o: OutPoint): Job -> nat {
    (j: Job) => if (j.Finalised? && o in Claims(w, me, j.item.trade)) || (j.Releasing? && o in Claims(w, me, j.trade))
                then 1 else 0
  }

  /** Coins of successful trades are spent, and never unlocked. */
  function SpentClaims(w: World, me: string, o: OutPoint): Entry -> nat {
    (e: Entry) => if e.Handled? && e.trade.state == Success && o in Claims(w, me, e.trade) then 1 else 0
  }

  /** How many trades claim a coin. */
  ghost function Claimed(w: World, n: Node, o: OutPoint): nat {
    Sum(TradeClaims(w, n.account, o), n.trades) + Sum(JobClaims(w, n.account, o), n.jobs)
    + Sum(SpentClaims(w, n.account, o), n.log)
  }

  /**
   * What is known of one coin. One that the program may lock is locked exactly
   * if one trade claims it or it was locked before, and never both. One with
   * another name is claimed by no trade, and locked only if it was before.
   */
  predicate CoinInOrder(own: bool, outside: set<OutPoint>, wallet: set<OutPoint>, o: OutPoint, claimed: nat) {
    if own then claimed + (if o in outside then 1 else 0) == if o in wallet then 1 else 0
    else claimed == 0 && (o in wallet ==> o in outside)
  }

  ghost predicate CoinOwned(w: World, outside: set<OutPoint>, n: Node, o: OutPoint) {
    CoinInOrder(IsOwnCoin(w, n.account, o), outside, n.wallet, o, Claimed(w, n, o))
  }

  /**
   * The locked coins are the disjoint union of what single trades claim and of coins
   * locked before, whichever those are.
   */
  ghost predicate Owned(w: World, outside: set<OutPoint>, n: Node) {
    forall o: OutPoint :: CoinOwned(w, outside, n, o)
  }

  /** No exception in a step loses track of coins just locked. */
  ghost predicate NothingLeaks(w: World, n: Node, e: Event) {
    match e
    case TakeOrder(o, units, now, rpc) =>
      !ThrowsAfterLock(w, n.account, NewTrade(o, ToUInt64(units), o.account.GetOr(""), now), n.wallet, rpc)
    case AnyMessage(msg, rpc) =>
      var i := FindMatch(n.trades, msg, 0);
      i < |n.trades| ==>
        var t := HandleMessage(n.account, n.trades[i].trade, msg);
        UsableSellerData(n.account, t) ==> !ThrowsAfterLock(w, n.account, t, n.wallet, rpc)
    case _ => true
  }

  lemma SameClaimsKeep(w: World, outside: set<OutPoint>, n: Node, m: Node)
    requires Owned(w, outside, n) && m.account == n.account && m.wallet == n.wallet
    requires forall o :: Claimed(w, m, o) == Claimed(w, n, o)
    ensures Owned(w, outside, m)
  {
    hide Claimed;
    forall o: OutPoint ensures CoinOwned(w, outside, m, o) {
      assert CoinOwned(w, outside, n, o);
    }
  }

  ghost predicate NotOwn(w: World, me: string, coins: set<OutPoint>) {
    forall o :: o in coins ==> !IsOwnCoin(w, me, o)
  }

  /** A step that locks what one trade newly claims, and frees some coins that are not our own. */
  lemma MoreClaimsKeep(w: World, outside: set<OutPoint>, n: Node, m: Node, t: TradeState, r: Result,
                       freed: set<OutPoint>)
    requires Owned(w, outside, n) && m.account == n.account && m.wallet == r.locked
    requires LocksBut(w, n.account, t, n.wallet, r, freed) && NotOwn(w, n.account, freed)
    requires forall o :: Claimed(w, m, o) + (if o in Claims(w, n.account, t) then 1 else 0)
                         == Claimed(w, n, o) + if o in Claims(w, n.account, r.trade) then 1 else 0
    requires OwnCoins(w, n.account, Claims(w, n.account, r.trade))
    ensures Owned(w, outside, m)
  {
    hide Claimed, Claims, IsOwnCoin;
    forall o: OutPoint ensures CoinOwned(w, outside, m, o) {
      assert CoinOwned(w, outside, n, o);
    }
  }

  lemma ClaimsAreOwn(w: World, me: string, t: TradeState)
    requires Consistent(w, me, t)
    ensures OwnCoins(w, me, Claims(w, me, t))
  {
    hide SellerSigned, BuyerSigned;
  }

  /** Entries that handle no trade. */
  lemma LogClaimsNone(w: World, me: string, o: OutPoint, log: seq<Entry>, later: seq<Entry>)
    requires log <= later && forall k :: |log| <= k < |later| ==> !later[k].Handled?
    ensures Sum(SpentClaims(w, me, o), later) == Sum(SpentClaims(w, me, o), log)
  {
    var more := later[|log|..];
    assert later == log + more;
    SumConcat(SpentClaims(w, me, o), log, more);
    SumZero(SpentClaims(w, me, o), more);
  }

  predicate HandlesNone(log: seq<Entry>, later: seq<Entry>) {
    log <= later && forall k :: |log| <= k < |later| ==> !later[k].Handled?
  }

  lemma ChangedClaims(w: World, n: Node, i: nat, x: Numbered, m: Node, o: OutPoint)
    requires i < |n.trades| && m.account == n.account && m.trades == n.trades[i := x] && m.jobs == n.jobs
    requires HandlesNone(n.log, m.log)
    ensures Claimed(w, m, o) + TradeClaims(w, n.account, o)(n.trades[i])
            == Claimed(w, n, o) + TradeClaims(w, n.account, o)(x)
  {
    hide Sum, Claims;
    LogClaimsNone(w, n.account, o, n.log, m.log);
    SumUpdate(TradeClaims(w, n.account, o), n.trades, i, x);
  }

  lemma AddedClaims(w: World, n: Node, x: Numbered, m: Node, o: OutPoint)
    requires m.account == n.account && m.trades == n.trades + [x] && m.jobs == n.jobs && HandlesNone(n.log, m.log)
    ensures Claimed(w, m, o) == Claimed(w, n, o) + TradeClaims(w, n.account, o)(x)
  {
    hide Sum, Claims;
    LogClaimsNone(w, n.account, o, n.log, m.log);
    SumAppend(TradeClaims(w, n.account, o), n.trades, x);
  }

  /** Handling a message changes neither what a trade claims nor who it is with. */
  lemma HandledClaims(w: World, me: string, t: TradeState, msg: Message)
    requires Consistent(w, me, t)
    ensures Claims(w, me, HandleMessage(me, t, msg)) == Claims(w, me, t)
    ensures HandleMessage(me, t, msg).counterparty == t.counterparty
  {
  }

  lemma DiscardedIsNotOwn(w: World, me: string, t: TradeState, locked: set<OutPoint>, rpc: Rpc)
    requires UsableSellerData(me, t) && LawfulAnswers(w, me, t, locked, rpc) && t.counterparty != me
    ensures NotOwn(w, me, Discarded(w, me, t, locked, rpc))
  {
  }

  lemma ReplyOwned(w: World, me: string, t: TradeState, locked: set<OutPoint>, rpc: Rpc)
    requires Consistent(w, me, t) && LawfulAnswers(w, me, t, locked, rpc) && t.counterparty != me
    requires !ThrowsAfterLock(w, me, t, locked, rpc)
    ensures var (r, freed) := (HasReply(w, me, t, locked, rpc), Discarded(w, me, t, locked, rpc));
            && LocksBut(w, me, t, locked, r, freed) && NotOwn(w, me, freed) && OwnCoins(w, me, Claims(w, me, r.trade))
            && forall log :: HandlesNone(log, log + ReplyLog(r, rpc))
  {
    hide HasReply, LawfulAnswers, ThrowsAfterLock, Claims, OwnCoins, NotOwn, Discarded;
    var r := HasReply(w, me, t, locked, rpc);
    ReplyKeepsConsistent(w, me, t, locked, rpc);
    ReplyLocksExactly(w, me, t, locked, rpc);
    DiscardedIsNotOwn(w, me, t, locked, rpc);
    ClaimsAreOwn(w, me, r.trade);
  }

  lemma DeliverOwned(w: World, outside: set<OutPoint>, n: Node, msg: Message, rpc: Rpc)
    requires Sound(w, n) && Owned(w, outside, n)
    requires LawfulStep(w, n, AnyMessage(msg, rpc)) && NothingLeaks(w, n, AnyMessage(msg, rpc))
    ensures Owned(w, outside, Deliver(w, n, msg, rpc))
  {
    var i := FindMatch(n.trades, msg, 0);
    if i < |n.trades| {
      MatchedOwned(w, outside, n, i, msg, rpc);
    } else {
      SameClaims(w, n, Deliver(w, n, msg, rpc));
      hide Owned, Claimed;
      SameClaimsKeep(w, outside, n, Deliver(w, n, msg, rpc));
    }
  }

  lemma MatchedOwned(w: World, outside: set<OutPoint>, n: Node, i: nat, msg: Message, rpc: Rpc)
    requires Sound(w, n) && Owned(w, outside, n) && i == FindMatch(n.trades, msg, 0) < |n.trades|
    requires LawfulStep(w, n, AnyMessage(msg, rpc)) && NothingLeaks(w, n, AnyMessage(msg, rpc))
    ensures Owned(w, outside, Deliver(w, n, msg, rpc))
  {
    hide Deliver, HandleMessage, HasReply, ThrowsAfterLock, Claims, Claimed, Consistent, Lawful, LawfulView, ReplyLog,
      Discarded;
    var (t0, t) := (n.trades[i].trade, HandleMessage(n.account, n.trades[i].trade, msg));
    assert TradeSound(w, n.account, n.log, t0);
    HandleKeepsConsistent(w, n.account, t0, msg);
    HandledClaims(w, n.account, t0, msg);
    DeliverIs(w, n, msg, rpc);
    hide Sound, TradeSound;
    var r := HasReply(w, n.account, t, n.wallet, rpc);
    ReplyOwned(w, n.account, t, n.wallet, rpc);
    assert HandlesNone(n.log + [Received(msg)], n.log + [Received(msg)] + ReplyLog(r, rpc));
    DeliveredOwned(w, outside, n, i, Deliver(w, n, msg, rpc), t, r, Discarded(w, n.account, t, n.wallet, rpc));
  }

  lemma DeliveredOwned(w: World, outside: set<OutPoint>, n: Node, i: nat, m: Node, t: TradeState, r: Result,
                       freed: set<OutPoint>)
    requires Owned(w, outside, n) && i < |n.trades|
             && Claims(w, n.account, t) == Claims(w, n.account, n.trades[i].trade)
    requires m.account == n.account && m.trades == n.trades[i := n.trades[i].(trade := r.trade)] && m.jobs == n.jobs
    requires HandlesNone(n.log, m.log) && m.wallet == r.locked
    requires LocksBut(w, n.account, t, n.wallet, r, freed) && NotOwn(w, n.account, freed)
    requires OwnCoins(w, n.account, Claims(w, n.account, r.trade))
    ensures Owned(w, outside, m)
  {
    hide Claimed, Claims, Owned;
    forall o ensures Claimed(w, m, o) + (if o in Claims(w, n.account, t) then 1 else 0)
                     == Claimed(w, n, o) + if o in Claims(w, n.account, r.trade) then 1 else 0 {
      ChangedClaims(w, n, i, m.trades[i], m, o);
    }
    MoreClaimsKeep(w, outside, n, m, t, r, freed);
  }

  /** The first reply of a taker: an exception then leaves nothing locked. */
  lemma FirstReplyOwned(w: World, me: string, t: TradeState, locked: set<OutPoint>, rpc: Rpc, msg: Message)
    requires t == NewTrade(t.order, t.units, t.counterparty, t.startTime) && t.counterparty != me
    requires LawfulAnswers(w, me, t, locked, rpc) && !ThrowsAfterLock(w, me, t, locked, rpc)
    ensures var r := HasReply(w, me, t, locked, rpc);
            && LocksItsClaims(w, me, t, locked, r) && OwnCoins(w, me, Claims(w, me, r.trade)) && Claims(w, me, t) == {}
            && (r.outcome.Threw? ==> r.locked == locked)
            && forall log :: HandlesNone(log, log + ReplyLog(r.(outcome := Sent(msg)), rpc))
  {
    ReplyOwned(w, me, t, locked, rpc);
    hide Consistent, LocksItsClaims, Lawful;
  }

  lemma TakeOwned(w: World, outside: set<OutPoint>, n: Node, o: Order, units: Int64, now: int, rpc: Rpc)
    requires Owned(w, outside, n)
    requires LawfulStep(w, n, TakeOrder(o, units, now, rpc)) && NothingLeaks(w, n, TakeOrder(o, units, now, rpc))
    ensures Owned(w, outside, Take(w, n, o, units, now, rpc))
  {
    hide Take, HasReply, Claims, Claimed, ReplyLog, CheckOrder, Owned, HandlesNone, Lawful, LawfulView;
    var m := Take(w, n, o, units, now, rpc);
    if o.account.GetOr("") == n.account {
      OwnIsRefused(w, n, o, units, now, rpc);
    } else {
      var t := NewTrade(o, ToUInt64(units), o.account.GetOr(""), now);
      var r := HasReply(w, n.account, t, n.wallet, rpc);
      var msg := (if r.outcome.Sent? then r.outcome.msg else BasicMessage(t))
                     .(takingOrder := Some(TakingOrder(o.id.GetOr(0), t.units)));
      TakeIs(w, n, o, units, now, rpc, t, r, msg);
      FirstReplyOwned(w, n.account, t, n.wallet, rpc, msg);
      LogHandlesNone(n.log, r.(outcome := Sent(msg)), rpc);
      TakenOwned(w, outside, n, m, t, r);
    }
  }

  lemma OwnIsRefused(w: World, n: Node, o: Order, units: Int64, now: int, rpc: Rpc)
    requires o.account.GetOr("") == n.account
    ensures Take(w, n, o, units, now, rpc) == n
  {
    hide Reply, CheckOrder;
  }

  lemma LogHandlesNone(log: seq<Entry>, r: Result, rpc: Rpc)
    ensures HandlesNone(log, log + ReplyLog(r, rpc)) && HandlesNone(log, log)
  {
  }

  lemma TakenOwned(w: World, outside: set<OutPoint>, n: Node, m: Node, t: TradeState, r: Result)
    requires Owned(w, outside, n) && Claims(w, n.account, t) == {} && m.account == n.account && m.jobs == n.jobs
    requires LocksItsClaims(w, n.account, t, n.wallet, r) && OwnCoins(w, n.account, Claims(w, n.account, r.trade))
    requires HandlesNone(n.log, m.log)
    requires (m.trades == n.trades && m.wallet == n.wallet)
             || (m.trades == n.trades + [Numbered(n.nextSerial, r.trade)] && m.wallet == r.locked)
    ensures Owned(w, outside, m)
  {
    hide Claimed, Claims, Owned;
    if m.trades == n.trades {
      SameClaims(w, n, m);
      SameClaimsKeep(w, outside, n, m);
    } else {
      forall o ensures Claimed(w, m, o) + (if o in Claims(w, n.account, t) then 1 else 0)
                       == Claimed(w, n, o) + if o in Claims(w, n.account, r.trade) then 1 else 0 {
        AddedClaims(w, n, Numbered(n.nextSerial, r.trade), m, o);
      }
      MoreClaimsKeep(w, outside, n, m, t, r, {});
    }
  }

  lemma SameClaims(w: World, n: Node, m: Node)
    requires m.account == n.account && m.trades == n.trades && m.jobs == n.jobs && HandlesNone(n.log, m.log)
    ensures forall o :: Claimed(w, m, o) == Claimed(w, n, o)
  {
    forall o ensures Claimed(w, m, o) == Claimed(w, n, o) {
      LogClaimsNone(w, n.account, o, n.log, m.log);
    }
  }

  /** Replacing a job, with at most one entry added. */
  lemma JobClaimsReplaced(w: World, n: Node, i: nat, next: seq<Job>, m: Node, o: OutPoint)
    requires i < |n.jobs| && m.account == n.account && m.trades == n.trades && |next| <= 1
    requires m.jobs == n.jobs[..i] + next + n.jobs[i + 1..] && |n.log| <= |m.log| <= |n.log| + 1 && n.log <= m.log
    ensures Claimed(w, m, o) + JobClaims(w, n.account, o)(n.jobs[i])
            == Claimed(w, n, o) + (if next == [] then 0 else JobClaims(w, n.account, o)(next[0]))
               + if m.log == n.log then 0 else SpentClaims(w, n.account, o)(m.log[|n.log|])
    ensures JobClaims(w, n.account, o)(n.jobs[i]) <= Claimed(w, n, o)
  {
    hide Sum, Claims;
    SumReplace(JobClaims(w, n.account, o), n.jobs, i, next);
    SumIncludes(JobClaims(w, n.account, o), n.jobs, i);
    if next != [] {
      SumOne(JobClaims(w, n.account, o), next[0]);
      assert next == [next[0]];
    } else {
      SumZero(JobClaims(w, n.account, o), next);
    }
    if m.log != n.log {
      SumAppend(SpentClaims(w, n.account, o), n.log, m.log[|n.log|]);
      assert m.log == n.log + [m.log[|n.log|]];
    }
  }

  lemma {:induction false} HandleAllClaims(w: World, me: string, items: seq<Numbered>, o: OutPoint)
    ensures Sum(JobClaims(w, me, o), HandleAll(items)) == Sum(TradeClaims(w, me, o), items)
  {
    if items != [] {
      var k := |items| - 1;
      HandleAllClaims(w, me, items[..k], o);
      SumAppend(JobClaims(w, me, o), HandleAll(items[..k]), Finalised(items[k]));
    }
  }

  lemma UpdateTickOwned(w: World, outside: set<OutPoint>, n: Node, now: int, checks: nat -> ChainCheck, limits: Limits)
    requires Sound(w, n) && Owned(w, outside, n)
    ensures Owned(w, outside, UpdateAndArchive(n, now, checks, limits))
  {
    hide Owned, Claimed, Claims, Select, HandleAll, Updated;
    var m := UpdateAndArchive(n, now, checks, limits);
    var updated := UpdateEach(n.trades, now, checks, limits);
    forall i | 0 <= i < |updated|
      ensures Claims(w, n.account, updated[i].trade) == Claims(w, n.account, n.trades[i].trade)
    {
      assert TradeSound(w, n.account, n.log, n.trades[i].trade);
      UpdatedClaims(w, n.account, n.trades[i].trade, now, checks(i), limits);
    }
    forall o ensures Claimed(w, m, o) == Claimed(w, n, o) {
      ArchivedClaims(w, n, updated, m, o);
    }
    SameClaimsKeep(w, outside, n, m);
  }

  lemma UpdatedClaims(w: World, me: string, t: TradeState, now: int, c: ChainCheck, limits: Limits)
    ensures Claims(w, me, Updated(t, now, c, limits)) == Claims(w, me, t)
  {
    if !(t.state == Pending && t.ourPsbt.None?) {
      UpdateExtends(t, now, c, limits);
      hide Update;
    }
  }

  lemma ArchivedClaims(w: World, n: Node, updated: seq<Numbered>, m: Node, o: OutPoint)
    requires |updated| == |n.trades| && m.account == n.account && m.log == n.log
    requires forall i :: 0 <= i < |updated| ==>
               Claims(w, n.account, updated[i].trade) == Claims(w, n.account, n.trades[i].trade)
    requires m.trades == Select(updated, false) && m.jobs == n.jobs + HandleAll(Select(updated, true))
    ensures Claimed(w, m, o) == Claimed(w, n, o)
  {
    hide Claims, Sum, Select, HandleAll;
    var final := Select(updated, true);
    SumSame(TradeClaims(w, n.account, o), n.trades, updated);
    SelectSplits(TradeClaims(w, n.account, o), updated);
    HandleAllClaims(w, n.account, final, o);
    SumConcat(JobClaims(w, n.account, o), n.jobs, HandleAll(final));
  }

  /** Jobs that claim no coins. */
  lemma NeutralJobsKeep(w: World, outside: set<OutPoint>, n: Node, i: nat, next: seq<Job>, m: Node)
    requires Owned(w, outside, n) && i < |n.jobs| && m.account == n.account && m.trades == n.trades
             && m.wallet == n.wallet
    requires m.jobs == n.jobs[..i] + next + n.jobs[i + 1..] && |next| <= 1 && n.log <= m.log && |m.log| <= |n.log| + 1
    requires !n.jobs[i].Finalised? && !n.jobs[i].Releasing?
    requires next != [] ==> !next[0].Finalised? && !next[0].Releasing?
    requires m.log != n.log ==> !m.log[|n.log|].Handled?
    ensures Owned(w, outside, m)
  {
    hide Claimed, Claims, Owned;
    forall o ensures Claimed(w, m, o) == Claimed(w, n, o) {
      JobClaimsReplaced(w, n, i, next, m, o);
    }
    SameClaimsKeep(w, outside, n, m);
  }

  /** A finished trade passes its claims on: to the job that will release them, or to the coins spent for good. */
  lemma HandleOwned(w: World, outside: set<OutPoint>, n: Node, i: nat)
    requires Owned(w, outside, n) && i < |n.jobs| && n.jobs[i].Finalised?
    ensures Owned(w, outside, Handle(n, i))
  {
    hide Owned, Claimed, Claims, Handle, GetRole, CanUnlock, Rest;
    HandleIs(n, i);
    var m := Handle(n, i);
    if m.log != n.log {
      PassedOn(w, outside, n, i, NextJobs(n.account, n.jobs[i].item.trade), m);
    } else {
      SameClaims(w, n, m);
      SameClaimsKeep(w, outside, n, m);
    }
  }

  lemma PassedOn(w: World, outside: set<OutPoint>, n: Node, i: nat, next: seq<Job>, m: Node)
    requires Owned(w, outside, n) && i < |n.jobs| && n.jobs[i].Finalised? && |next| <= 1
    requires m.account == n.account && m.trades == n.trades && m.wallet == n.wallet
    requires m.jobs == n.jobs[..i] + next + n.jobs[i + 1..]
    requires var Numbered(serial, t) := n.jobs[i].item;
             && m.log == n.log + [Handled(serial, t)]
             && if t.state == Success then next != [] ==> next[0].Recreating? else next == [Releasing(t)]
    ensures Owned(w, outside, m)
  {
    hide Claims, Claimed, Owned;
    forall o ensures Claimed(w, m, o) == Claimed(w, n, o) {
      JobClaimsReplaced(w, n, i, next, m, o);
    }
    SameClaimsKeep(w, outside, n, m);
  }

  /**
   * What a failed trade unlocks is what it has claimed and, for a buyer, the one
   * name input of the transaction. The latter matters if and only if it was locked.
   */
  lemma ReleaseSetIsClaims(w: World, me: string, t: TradeState, wallet: set<OutPoint>)
    requires Consistent(w, me, t)
    ensures ReleaseSet(me, t) == Claims(w, me, t) + NameInputs(w, me, t) && Claims(w, me, t) !! NameInputs(w, me, t)
    ensures GetOrderType(me, t) == Bid && t.ourPsbt.Some? ==>
              exists nameIn :: NameInputs(w, me, t) == {nameIn} && w.nameOf(nameIn) == Some(t.counterparty)
    ensures wallet - ReleaseSet(me, t) == wallet - Claims(w, me, t) <==> NameInputs(w, me, t) !! wallet
  {
    hide PaysSeller, AllButOneChanged, Signs, SellerSigned, OnlyUpdates;
    if GetOrderType(me, t) == Bid && t.ourPsbt.Some? {
      var unsigned, nameIn :| BuyerSigned(w, me, t, unsigned, nameIn);
      assert NameInputs(w, me, t) == {nameIn};
    }
  }

  lemma NameInputsAreNotOwn(w: World, me: string, t: TradeState)
    requires Consistent(w, me, t) && t.counterparty != me
    ensures NotOwn(w, me, NameInputs(w, me, t))
  {
    hide Consistent;
    ReleaseSetIsClaims(w, me, t, {});
  }

  lemma ReleaseOwned(w: World, outside: set<OutPoint>, n: Node, i: nat, m: Node)
    requires Sound(w, n) && Owned(w, outside, n) && i < |n.jobs| && n.jobs[i].Releasing?
    requires m == n.(wallet := n.wallet - ReleaseSet(n.account, n.jobs[i].trade), jobs := Without(n.jobs, i))
    ensures Owned(w, outside, m)
  {
    hide Consistent, ReleaseSet, Claims, NameInputs, Claimed, IsOwnCoin, Heard, Vetted;
    var t := n.jobs[i].trade;
    assert JobSound(w, n.account, n.log, n.jobs[i]);
    ReleaseSetIsClaims(w, n.account, t, n.wallet);
    NameInputsAreNotOwn(w, n.account, t);
    JobLists(n, i, n.jobs[i]);
    forall o: OutPoint ensures CoinOwned(w, outside, m, o) {
      JobClaimsReplaced(w, n, i, [], m, o);
      assert CoinOwned(w, outside, n, o);
    }
  }

  lemma OrderTakenOwned(w: World, outside: set<OutPoint>, n: Node, i: nat, now: int)
    requires Owned(w, outside, n) && i < |n.jobs| && n.jobs[i].Taken? && n.jobs[i].msg.takingOrder.Some?
    ensures Owned(w, outside, OrderTaken(n, i, now))
  {
    hide Owned, CheckOrder;
    var m := OrderTaken(n, i, now);
    var refused := Refused(n.jobs[i].order.id.GetOr(0));
    JobLists(n, i, refused);
    if m.trades == n.trades {
      NeutralJobsKeep(w, outside, n, i, [refused], m);
    } else {
      var x := m.trades[|n.trades|];
      var p := n.(jobs := Without(n.jobs, i));
      assert m.trades == p.trades + [x] && m.jobs == p.jobs && Claims(w, n.account, x.trade) == {};
      hide OrderTaken, Claims, Claimed;
      NeutralJobsKeep(w, outside, n, i, [], p);
      forall o ensures Claimed(w, m, o) == Claimed(w, p, o) {
        AddedClaims(w, p, x, m, o);
      }
      SameClaimsKeep(w, outside, p, m);
    }
  }

  lemma StartTakingOwned(w: World, outside: set<OutPoint>, n: Node, msg: Message)
    requires Owned(w, outside, n)
    ensures Owned(w, outside, StartTaking(n, msg))
  {
    var m := StartTaking(n, msg);
    if m != n {
      var j := m.jobs[|n.jobs|];
      hide Sum, Claims, Owned;
      forall o ensures Claimed(w, m, o) == Claimed(w, n, o) {
        SumAppend(JobClaims(w, n.account, o), n.jobs, j);
      }
      hide Claimed;
      SameClaimsKeep(w, outside, n, m);
    }
  }

  lemma ContinueOwned(w: World, outside: set<OutPoint>, n: Node, i: nat, now: int, valid: bool)
    requires Sound(w, n) && Owned(w, outside, n) && i < |n.jobs|
    ensures Owned(w, outside, ContinueJob(n, i, now, valid))
  {
    hide Sound, Owned, Handle, OrderTaken, Claimed, CanUnlock, Unlocked;
    var m := ContinueJob(n, i, now, valid);
    JobLists(n, i, n.jobs[i]);
    match n.jobs[i]
    case Taken(_, msg) => if msg.takingOrder.Some? { OrderTakenOwned(w, outside, n, i, now); }
    case Finalised(_) => HandleOwned(w, outside, n, i);
    case Releasing(_) => ReleaseOwned(w, outside, n, i, m);
    case Refused(_) =>
      if m.jobs == n.jobs {
        SameClaims(w, n, m);
        SameClaimsKeep(w, outside, n, m);
      } else {
        NeutralJobsKeep(w, outside, n, i, [], m);
      }
    case Recreating(_, _) => NeutralJobsKeep(w, outside, n, i, [], m);
  }

  lemma StepOwned(w: World, outside: set<OutPoint>, n: Node, e: Event)
    requires Sound(w, n) && Owned(w, outside, n) && LawfulStep(w, n, e) && NothingLeaks(w, n, e)
    ensures Owned(w, outside, Step(w, n, e))
  {
    hide Sound, Owned, Claimed;
    if !n.crashed {
      match e
      case AddOrder(o) => SameClaims(w, n, Post(n, o)); SameClaimsKeep(w, outside, n, Post(n, o));
      case CancelOrders(ids) => SameClaims(w, n, Drop(n, ids)); SameClaimsKeep(w, outside, n, Drop(n, ids));
      case TakeOrder(o, units, now, rpc) => TakeOwned(w, outside, n, o, units, now, rpc);
      case TakingMessage(msg) => StartTakingOwned(w, outside, n, msg);
      case AnyMessage(msg, rpc) => DeliverOwned(w, outside, n, msg, rpc);
      case UpdateTick(now, checks, limits) => UpdateTickOwned(w, outside, n, now, checks, limits);
      case Continue(i, now, valid) => if i < |n.jobs| { ContinueOwned(w, outside, n, i, now, valid); }
    }
  }

  /** A run with lawful answers and no exception between a lock and its record. */
  ghost predicate TightRun(w: World, n: Node, events: seq<Event>) {
    events == []
    || (var k := |events| - 1;
        TightRun(w, n, events[..k]) && NothingLeaks(w, Run(w, n, events[..k]), events[k]))
  }

  /**
   * In every such run, and whatever coins were locked before, every claim of a
   * trade is locked, by that trade alone, and nothing else is but what was before.
   */
  lemma {:induction false} LocksAreOwned(w: World, account: string, outside: set<OutPoint>, events: seq<Event>)
    requires LawfulRun(w, NewNode(account, outside), events) && TightRun(w, NewNode(account, outside), events)
    ensures Owned(w, outside, Run(w, NewNode(account, outside), events))
  {
    if events != [] {
      var k := |events| - 1;
      LocksAreOwned(w, account, outside, events[..k]);
      RunsAreSound(w, account, outside, events[..k]);
      hide Owned, Sound, Step;
      StepOwned(w, outside, Run(w, NewNode(account, outside), events[..k]), events[k]);
    }
  }

  /**
   * Handling a failed or abandoned trade frees all its coins, which were locked,
   * and none that another trade claims. What else it frees is the name input of
   * a buyer's transaction, exactly if that was locked in this wallet.
   */
  lemma ReleaseIsExact(w: World, outside: set<OutPoint>, n: Node, i: nat, now: int, valid: bool)
    requires Sound(w, n) && Owned(w, outside, n) && i < |n.jobs| && n.jobs[i].Releasing?
    ensures var (m, t) := (ContinueJob(n, i, now, valid), n.jobs[i].trade);
            var (mine, theirs) := (Claims(w, n.account, t), NameInputs(w, n.account, t));
            && mine <= n.wallet && mine !! outside
            && m.wallet == n.wallet - mine - theirs
            && (m.wallet == n.wallet - mine <==> theirs !! n.wallet)
            && (forall j :: 0 <= j < |n.trades| ==> Claims(w, n.account, n.trades[j].trade) !! mine + theirs)
            && (forall j :: 0 <= j < |n.jobs| && j != i && n.jobs[j].Releasing? ==>
                  Claims(w, n.account, n.jobs[j].trade) !! mine + theirs)
            && (forall j :: 0 <= j < |n.jobs| && n.jobs[j].Finalised? ==>
                  Claims(w, n.account, n.jobs[j].item.trade) !! mine + theirs)
  {
    hide Consistent, ReleaseSet, Claims, NameInputs, Sum, IsOwnCoin, Heard, Vetted;
    var t := n.jobs[i].trade;
    var (mine, theirs) := (Claims(w, n.account, t), NameInputs(w, n.account, t));
    assert JobSound(w, n.account, n.log, n.jobs[i]);
    ReleaseSetIsClaims(w, n.account, t, n.wallet);
    NameInputsAreNotOwn(w, n.account, t);
    ClaimsAreOwn(w, n.account, t);
    forall o | o in mine + theirs
      ensures o in mine ==> o in n.wallet && o !in outside
      ensures forall j :: 0 <= j < |n.trades| ==> TradeClaims(w, n.account, o)(n.trades[j]) == 0
      ensures forall j :: 0 <= j < |n.jobs| && j != i ==> JobClaims(w, n.account, o)(n.jobs[j]) == 0
    {
      assert CoinOwned(w, outside, n, o);
      if o in mine {
        ClaimedOnce(w, outside, n, i, o);
      } else {
        ClaimedNever(w, n, o);
      }
    }
  }

  /** The claims of an active trade are locked, were not before, and no other active trade has any of them. */
  lemma ClaimsAreLocked(w: World, outside: set<OutPoint>, n: Node, i: nat)
    requires Sound(w, n) && Owned(w, outside, n) && i < |n.trades|
    ensures Claims(w, n.account, n.trades[i].trade) <= n.wallet
    ensures Claims(w, n.account, n.trades[i].trade) !! outside
    ensures forall j :: 0 <= j < |n.trades| && j != i ==>
              Claims(w, n.account, n.trades[j].trade) !! Claims(w, n.account, n.trades[i].trade)
  {
    hide Consistent, Claims, Sum, Heard, Vetted;
    assert TradeSound(w, n.account, n.log, n.trades[i].trade);
    ClaimsAreOwn(w, n.account, n.trades[i].trade);
    forall o | o in Claims(w, n.account, n.trades[i].trade)
      ensures o in n.wallet && o !in outside
      ensures forall j :: 0 <= j < |n.trades| && j != i ==> o !in Claims(w, n.account, n.trades[j].trade)
    {
      assert CoinOwned(w, outside, n, o);
      var f := TradeClaims(w, n.account, o);
      SumIncludes(f, n.trades, i);
      forall j | 0 <= j < |n.trades| && j != i ensures f(n.trades[j]) == 0 {
        SumIncludesTwo(f, n.trades, if i < j then i else j, if i < j then j else i);
      }
    }
  }

  /** Coins of our own that were locked before, by whomever, stay locked. */
  lemma OwnCoinsStayLocked(w: World, outside: set<OutPoint>, n: Node, o: OutPoint)
    requires Owned(w, outside, n) && o in outside && IsOwnCoin(w, n.account, o)
    ensures o in n.wallet && Claimed(w, n, o) == 0
  {
    hide Claimed;
    assert CoinOwned(w, outside, n, o);
  }

  lemma ClaimedOnce(w: World, outside: set<OutPoint>, n: Node, i: nat, o: OutPoint)
    requires CoinOwned(w, outside, n, o) && i < |n.jobs| && JobClaims(w, n.account, o)(n.jobs[i]) == 1
    ensures o in n.wallet && o !in outside
    ensures forall j :: 0 <= j < |n.trades| ==> TradeClaims(w, n.account, o)(n.trades[j]) == 0
    ensures forall j :: 0 <= j < |n.jobs| && j != i ==> JobClaims(w, n.account, o)(n.jobs[j]) == 0
  {
    hide Claims, Sum;
    SumIncludes(JobClaims(w, n.account, o), n.jobs, i);
    forall j | 0 <= j < |n.trades| ensures TradeClaims(w, n.account, o)(n.trades[j]) == 0 {
      SumIncludes(TradeClaims(w, n.account, o), n.trades, j);
    }
    forall j | 0 <= j < |n.jobs| && j != i ensures JobClaims(w, n.account, o)(n.jobs[j]) == 0 {
      SumIncludesTwo(JobClaims(w, n.account, o), n.jobs, if i < j then i else j, if i < j then j else i);
    }
  }

  lemma ClaimedNever(w: World, n: Node, o: OutPoint)
    requires Claimed(w, n, o) == 0
    ensures forall j :: 0 <= j < |n.trades| ==> TradeClaims(w, n.account, o)(n.trades[j]) == 0
    ensures forall j :: 0 <= j < |n.jobs| ==> JobClaims(w, n.account, o)(n.jobs[j]) == 0
  {
    hide Claims, Sum;
    forall j | 0 <= j < |n.trades| ensures TradeClaims(w, n.account, o)(n.trades[j]) == 0 {
      SumIncludes(TradeClaims(w, n.account, o), n.trades, j);
    }
    forall j | 0 <= j < |n.jobs| ensures JobClaims(w, n.account, o)(n.jobs[j]) == 0 {
      SumIncludes(JobClaims(w, n.account, o), n.jobs, j);
    }
  }
}
