/**
 * The trades of a whole node: each of them stays consistent in every run, and
 * what the node has heard, verified, sent and broadcast for it is on record.
 */
module NodeTrades {
  import opened Amounts
  import opened Broadcasts
  import opened Chain
  import opened Checker
  import opened Nodes
  import opened NodeOrders
  import opened Orders
  import opened OwnOrders
  import opened Psbts
  import opened TradeRules
  import opened TradeRuns
  import opened Wrappers

  /** Wallet and chain keep their promises in a step. */
  ghost predicate LawfulStep(w: World, n: Node, e: Event) {
    match e
    case TakeOrder(o, _, _, rpc) => Lawful(w, n.account, n.wallet, rpc) && LawfulView(w, o.account.GetOr(""), rpc)
    case AnyMessage(msg, rpc) => Lawful(w, n.account, n.wallet, rpc) && LawfulView(w, msg.counterparty, rpc)
    case _ => true
  }

  ghost predicate LawfulRun(w: World, n: Node, events: seq<Event>) {
    events == []
    || (var k := |events| - 1;
        LawfulRun(w, n, events[..k]) && LawfulStep(w, Run(w, n, events[..k]), events[k]))
  }

  lemma RunNone(w: World, n: Node)
    ensures Run(w, n, []) == n && LawfulRun(w, n, [])
  {
  }

  lemma RunOn(w: World, n: Node, events: seq<Event>, e: Event)
    ensures Run(w, n, events + [e]) == Step(w, Run(w, n, events), e)
    ensures LawfulRun(w, n, events + [e]) <==> LawfulRun(w, n, events) && LawfulStep(w, Run(w, n, events), e)
  {
    hide Step, LawfulStep;
    assert (events + [e])[..|events|] == events;
  }

  lemma {:induction false} RunAppend(w: World, n: Node, events: seq<Event>, more: seq<Event>)
    ensures Run(w, n, events + more) == Run(w, Run(w, n, events), more)
    ensures LawfulRun(w, n, events + more) <==> LawfulRun(w, n, events) && LawfulRun(w, Run(w, n, events), more)
  {
    hide Step, LawfulStep;
    if more == [] {
      assert events + more == events;
    } else {
      var k := |more| - 1;
      RunAppend(w, n, events, more[..k]);
      assert (events + more)[..|events + more| - 1] == events + more[..k];
    }
  }

  /** The counterparty's PSBT came in a message for the trade. */
  ghost predicate Heard(log: seq<Entry>, t: TradeState) {
    t.theirPsbt.Some? ==> exists msg :: Received(msg) in log && Matches(t, msg) && msg.psbt == t.theirPsbt
  }

  /** An entry says that a buyer checked the seller before signing, and used the name input found then. */
  ghost predicate IsVetting(w: World, me: string, e: Entry, t: TradeState, unsigned: Psbt) {
    && e.Verified? && Extends(e.trade, t) && e.trade.ourPsbt == t.ourPsbt
    && CheckForBuyerTrade(e.view) == Some(e.nameIn) && BuyerSigned(w, me, t, unsigned, e.nameIn)
    && e.view.isAsset && e.view.canBuy && e.view.utxoBlock.Some? && e.view.sellableAt.Some?
  }

  ghost predicate Vetted(w: World, me: string, log: seq<Entry>, t: TradeState) {
    GetOrderType(me, t) == Bid && t.ourPsbt.Some? ==> exists e, unsigned :: e in log && IsVetting(w, me, e, t, unsigned)
  }

  /** A maker's trade that is pending, or was, has been broadcast. */
  ghost predicate CastOut(me: string, log: seq<Entry>, t: TradeState) {
    GetRole(me, t) == Maker && !Unshared(t) ==>
      t.ourPsbt.Some? && exists t' :: Broadcast(t', t.ourPsbt.value.tx) in log && Extends(t', t)
  }

  ghost predicate TradeSound(w: World, me: string, log: seq<Entry>, t: TradeState) {
    && Consistent(w, me, t) && t.counterparty != me && Heard(log, t) && Vetted(w, me, log, t)
    && CastOut(me, log, t)
  }

  /** What was sent is what the trade was at, unsigned by a maker, and what was broadcast is on both PSBTs. */
  ghost predicate EntrySound(w: World, me: string, log: seq<Entry>, e: Entry) {
    match e
    case Replied(t, m) =>
      && TradeSound(w, me, log, t) && m.counterparty == t.counterparty && m.identifier == GetIdentifier(t)
      && (m.psbt.Some? && GetRole(me, t) == Taker ==>
            t.state == Pending && t.ourPsbt.Some? && m.psbt == Some(Encoded(t.ourPsbt.value)))
      && (m.psbt.Some? && GetRole(me, t) == Maker ==> m.psbt.value.Encoded? && Unsigned(m.psbt.value.psbt))
    case Broadcast(t, tx) =>
      && TradeSound(w, me, log, t) && GetRole(me, t) == Maker && t.state == Pending
      && t.ourPsbt.Some? && t.ourPsbt.value.tx == tx
      && t.theirPsbt.Some? && t.theirPsbt.value.Encoded? && t.theirPsbt.value.psbt.tx == tx
      && EveryInputSigned(me, t)
    case _ => true
  }

  ghost predicate JobSound(w: World, me: string, log: seq<Entry>, j: Job) {
    match j
    case Finalised(item) => TradeSound(w, me, log, item.trade)
    case Releasing(t) => TradeSound(w, me, log, t)
    case _ => true
  }

  ghost predicate Sound(w: World, n: Node) {
    && (forall i :: 0 <= i < |n.trades| ==> TradeSound(w, n.account, n.log, n.trades[i].trade))
    && (forall i :: 0 <= i < |n.jobs| ==> JobSound(w, n.account, n.log, n.jobs[i]))
    && (forall i :: 0 <= i < |n.log| ==> EntrySound(w, n.account, n.log, n.log[i]))
  }

  // ---------------------------------------------------------------------------
  // The record only grows, so it goes on supporting what it has supported.

  lemma TradeSoundGrows(w: World, me: string, log: seq<Entry>, later: seq<Entry>, t: TradeState)
    requires TradeSound(w, me, log, t) && log <= later
    ensures TradeSound(w, me, later, t)
  {
    hide Consistent, BuyerSigned, Matches, IsVetting, Extends, Unshared, GetRole;
    if t.theirPsbt.Some? {
      var msg :| Received(msg) in log && Matches(t, msg) && msg.psbt == t.theirPsbt;
      assert Received(msg) in later;
    }
    if GetOrderType(me, t) == Bid && t.ourPsbt.Some? {
      var e, unsigned :| e in log && IsVetting(w, me, e, t, unsigned);
      assert e in later;
    }
    if GetRole(me, t) == Maker && !Unshared(t) {
      var t' :| Broadcast(t', t.ourPsbt.value.tx) in log && Extends(t', t);
      assert Broadcast(t', t.ourPsbt.value.tx) in later;
    }
  }

  lemma ItemsSoundGrow(w: World, n: Node, later: seq<Entry>)
    requires Sound(w, n) && n.log <= later
    ensures forall i :: 0 <= i < |n.trades| ==> TradeSound(w, n.account, later, n.trades[i].trade)
    ensures forall i :: 0 <= i < |n.jobs| ==> JobSound(w, n.account, later, n.jobs[i])
    ensures forall i :: 0 <= i < |n.log| ==> EntrySound(w, n.account, later, n.log[i])
  {
    hide TradeSound;
    forall t | TradeSound(w, n.account, n.log, t) ensures TradeSound(w, n.account, later, t) {
      TradeSoundGrows(w, n.account, n.log, later, t);
    }
  }

  /** A step whose trades and jobs are old ones, or sound, and whose new entries are, too. */
  lemma SoundFrom(w: World, n: Node, m: Node)
    requires Sound(w, n) && m.account == n.account && n.log <= m.log
    requires forall i :: 0 <= i < |m.trades| ==>
               m.trades[i] in n.trades || TradeSound(w, m.account, m.log, m.trades[i].trade)
    requires forall i :: 0 <= i < |m.jobs| ==> m.jobs[i] in n.jobs || JobSound(w, m.account, m.log, m.jobs[i])
    requires forall i :: |n.log| <= i < |m.log| ==> EntrySound(w, m.account, m.log, m.log[i])
    ensures Sound(w, m)
  {
    hide TradeSound, JobSound, EntrySound;
    ItemsSoundGrow(w, n, m.log);
  }

  // ---------------------------------------------------------------------------
  // Steps of single trades.

  lemma BuyerSignedExtends(w: World, me: string, t: TradeState, t1: TradeState, unsigned: Psbt, nameIn: OutPoint)
    requires BuyerSigned(w, me, t, unsigned, nameIn) && Extends(t, t1)
    ensures BuyerSigned(w, me, t1, unsigned, nameIn)
  {
    hide PaysSeller, AllButOneChanged, Signs;
  }

  lemma VettedExtends(w: World, me: string, log: seq<Entry>, t: TradeState, t1: TradeState)
    requires Vetted(w, me, log, t) && Extends(t, t1) && t1.ourPsbt == t.ourPsbt
    ensures Vetted(w, me, log, t1)
  {
    if GetOrderType(me, t) == Bid && t.ourPsbt.Some? {
      hide BuyerSigned;
      var e, unsigned :| e in log && IsVetting(w, me, e, t, unsigned);
      BuyerSignedExtends(w, me, t, t1, unsigned, e.nameIn);
      assert IsVetting(w, me, e, t1, unsigned);
    }
  }

  lemma HeardExtends(log: seq<Entry>, t: TradeState, t1: TradeState)
    requires Heard(log, t) && Extends(t, t1) && t1.theirPsbt == t.theirPsbt
    ensures Heard(log, t1)
  {
    if t.theirPsbt.Some? {
      var msg :| Received(msg) in log && Matches(t, msg) && msg.psbt == t.theirPsbt;
      assert Matches(t1, msg);
    }
  }

  lemma CastOutExtends(me: string, log: seq<Entry>, t: TradeState, t1: TradeState)
    requires CastOut(me, log, t) && Extends(t, t1) && t1.ourPsbt == t.ourPsbt && (Unshared(t1) <==> Unshared(t))
    ensures CastOut(me, log, t1)
  {
    hide Unshared;
    assert GetRole(me, t1) == GetRole(me, t);
    if GetRole(me, t) == Maker && !Unshared(t) {
      var t' :| Broadcast(t', t.ourPsbt.value.tx) in log && Extends(t', t);
      ExtendsOn(t', t, t1);
    }
  }

  lemma HandledSound(w: World, me: string, log: seq<Entry>, t: TradeState, msg: Message)
    requires TradeSound(w, me, log, t) && Matches(t, msg)
    ensures TradeSound(w, me, log + [Received(msg)], HandleMessage(me, t, msg))
  {
    hide Consistent, Vetted, CastOut;
    var (t1, later) := (HandleMessage(me, t, msg), log + [Received(msg)]);
    TradeSoundGrows(w, me, log, later, t);
    HandleKeepsConsistent(w, me, t, msg);
    HandleExtends(me, t, msg);
    VettedExtends(w, me, later, t, t1);
    CastOutExtends(me, later, t, t1);
    assert t1.theirPsbt == t.theirPsbt || t1.theirPsbt == msg.psbt;
    if t1.theirPsbt == t.theirPsbt {
      HeardExtends(later, t, t1);
    } else {
      assert Received(msg) in later && Matches(t1, msg);
    }
  }

  lemma UpdatedSound(w: World, me: string, log: seq<Entry>, t: TradeState, now: int, c: ChainCheck, limits: Limits)
    requires TradeSound(w, me, log, t)
    ensures TradeSound(w, me, log, Updated(t, now, c, limits))
  {
    var t1 := Updated(t, now, c, limits);
    assert t.state == Pending ==> t.ourPsbt.Some?;
    UpdateExtends(t, now, c, limits);
    UpdateKeepsConsistent(w, me, t, now, c, limits);
    VettedExtends(w, me, log, t, t1);
    CastOutExtends(me, log, t, t1);
    HeardExtends(log, t, t1);
  }

  /** A buyer who builds a transaction has just checked the seller. */
  lemma ReplyVets(w: World, me: string, t: TradeState, locked: set<OutPoint>, rpc: Rpc)
    requires Consistent(w, me, t) && LawfulAnswers(w, me, t, locked, rpc)
    requires GetOrderType(me, t) == Bid && t.ourPsbt.None? && HasReply(w, me, t, locked, rpc).trade.ourPsbt.Some?
    ensures var r := HasReply(w, me, t, locked, rpc);
            && r.verified.Some? && rpc.buyerView.Some? && CheckForBuyerTrade(rpc.buyerView.value) == r.verified
            && rpc.buyerView.value.isAsset && rpc.buyerView.value.canBuy
            && rpc.buyerView.value.utxoBlock.Some? && rpc.buyerView.value.sellableAt.Some?
            && exists unsigned :: BuyerSigned(w, me, r.trade, unsigned, r.verified.value)
  {
    hide BuyerSigned;
    var r := HasReply(w, me, t, locked, rpc);
    var b := BuyerBuilds(w, me, t, t.sellerData.value, locked, rpc);
    BuyerBuildsWell(w, me, t, locked, rpc);
    BuyerCheckIsExact(rpc.buyerView.value);
    assert BuyerSigned(w, me, t.(ourPsbt := Some(b.signed)), b.unsigned, b.nameIn);
    BuyerSignedExtends(w, me, t.(ourPsbt := Some(b.signed)), r.trade, b.unsigned, b.nameIn);
  }

  lemma ReplyKeepsTheirs(w: World, me: string, t: TradeState, locked: set<OutPoint>, rpc: Rpc)
    requires UsableSellerData(me, t)
    ensures var r := HasReply(w, me, t, locked, rpc);
            r.trade.theirPsbt == t.theirPsbt && (r.verified.Some? ==> rpc.buyerView.Some?)
  {
    hide OutputsVerdict, OnlyInputChanged, AllButOneChanged, ConstructTransaction;
  }

  /** What a maker broadcasts is on the counterparty's PSBT, too. */
  lemma BroadcastIsTheirs(w: World, me: string, t: TradeState, locked: set<OutPoint>, rpc: Rpc)
    requires Consistent(w, me, t) && LawfulAnswers(w, me, t, locked, rpc)
    requires HasReply(w, me, t, locked, rpc).broadcast.Some?
    ensures t.theirPsbt.Some? && t.theirPsbt.value.Encoded?
    ensures t.theirPsbt.value.psbt.tx == HasReply(w, me, t, locked, rpc).broadcast.value
  {
    hide Consistent, LawfulAnswers, HasReply;
    if GetOrderType(me, t) == Ask {
      SellersBroadcast(w, me, t, locked, rpc);
    } else {
      BuyersBroadcast(w, me, t, locked, rpc);
    }
  }

  lemma SellersBroadcast(w: World, me: string, t: TradeState, locked: set<OutPoint>, rpc: Rpc)
    requires Consistent(w, me, t) && LawfulAnswers(w, me, t, locked, rpc) && GetOrderType(me, t) == Ask
    requires HasReply(w, me, t, locked, rpc).broadcast.Some?
    ensures t.theirPsbt.Some? && t.theirPsbt.value.Encoded?
    ensures t.theirPsbt.value.psbt.tx == HasReply(w, me, t, locked, rpc).broadcast.value
  {
    hide HasReply, LawfulAnswers;
    ReplyKeepsConsistent(w, me, t, locked, rpc);
    ReplyHasShape(w, me, t, locked, rpc);
    ReplyKeepsTheirs(w, me, t, locked, rpc);
    ReplyDecreases(w, me, t, locked, rpc);
    var t1 := HasReply(w, me, t, locked, rpc).trade;
    assert SellerSigned(w, me, t1) && t1.ourPsbt.value.tx == t1.theirPsbt.value.psbt.tx;
  }

  lemma BuyersBroadcast(w: World, me: string, t: TradeState, locked: set<OutPoint>, rpc: Rpc)
    requires Consistent(w, me, t) && LawfulAnswers(w, me, t, locked, rpc) && GetOrderType(me, t) == Bid
    requires HasReply(w, me, t, locked, rpc).broadcast.Some?
    ensures t.theirPsbt.Some? && t.theirPsbt.value.Encoded?
    ensures t.theirPsbt.value.psbt.tx == HasReply(w, me, t, locked, rpc).broadcast.value
  {
    hide BuyerBuilds, SellerSigned, BuyerSigned;
  }

  lemma ReplyVetted(w: World, me: string, log: seq<Entry>, t: TradeState, locked: set<OutPoint>, rpc: Rpc)
    requires TradeSound(w, me, log, t) && LawfulAnswers(w, me, t, locked, rpc)
    ensures var r := HasReply(w, me, t, locked, rpc); Vetted(w, me, log + ReplyLog(r, rpc), r.trade)
  {
    hide HasReply, SellerSigned, BuyerSigned, Lawful, LawfulView, Heard;
    var r := HasReply(w, me, t, locked, rpc);
    var later := log + ReplyLog(r, rpc);
    ReplyDecreases(w, me, t, locked, rpc);
    if GetOrderType(me, t) == Bid && r.trade.ourPsbt.Some? {
      if t.ourPsbt.None? {
        ReplyVets(w, me, t, locked, rpc);
        var unsigned :| BuyerSigned(w, me, r.trade, unsigned, r.verified.value);
        var e := Verified(r.trade, r.verified.value, rpc.buyerView.value);
        assert ReplyLog(r, rpc)[0] == e;
        assert e in later;
        assert IsVetting(w, me, e, r.trade, unsigned);
      } else {
        TradeSoundGrows(w, me, log, later, t);
        VettedExtends(w, me, later, t, r.trade);
      }
    }
  }

  lemma ReplyCastsOut(w: World, me: string, log: seq<Entry>, t: TradeState, locked: set<OutPoint>, rpc: Rpc)
    requires TradeSound(w, me, log, t) && LawfulAnswers(w, me, t, locked, rpc)
    ensures var r := HasReply(w, me, t, locked, rpc); CastOut(me, log + ReplyLog(r, rpc), r.trade)
  {
    hide HasReply, Heard, Vetted, SellerSigned, BuyerSigned, OwnSellerData, LawfulAnswers;
    var r := HasReply(w, me, t, locked, rpc);
    ReplyDecreases(w, me, t, locked, rpc);
    TradeSoundGrows(w, me, log, log + ReplyLog(r, rpc), t);
    if t.state == Initiated {
      PendingExactly(w, me, t, locked, rpc);
      BroadcastIsSigned(w, me, t, locked, rpc);
      CastIsLogged(log, r, rpc);
    } else {
      LateReplyIsSilent(w, me, t, locked, rpc);
    }
  }

  lemma CastIsLogged(log: seq<Entry>, r: Result, rpc: Rpc)
    ensures r.broadcast.Some? ==> Broadcast(r.trade, r.broadcast.value) in log + ReplyLog(r, rpc)
    ensures Extends(r.trade, r.trade)
  {
  }

  lemma LateReplyIsSilent(w: World, me: string, t: TradeState, locked: set<OutPoint>, rpc: Rpc)
    requires UsableSellerData(me, t) && t.state != Initiated
    ensures HasReply(w, me, t, locked, rpc) == Ends(t, locked, Silent)
  {
  }

  lemma ReplySound(w: World, me: string, log: seq<Entry>, t: TradeState, locked: set<OutPoint>, rpc: Rpc)
    requires TradeSound(w, me, log, t) && LawfulAnswers(w, me, t, locked, rpc)
    ensures var r := HasReply(w, me, t, locked, rpc); TradeSound(w, me, log + ReplyLog(r, rpc), r.trade)
  {
    hide HasReply, Vetted, CastOut;
    var r := HasReply(w, me, t, locked, rpc);
    var later := log + ReplyLog(r, rpc);
    ReplyKeepsConsistent(w, me, t, locked, rpc);
    ReplyDecreases(w, me, t, locked, rpc);
    ReplyKeepsTheirs(w, me, t, locked, rpc);
    ReplyVetted(w, me, log, t, locked, rpc);
    ReplyCastsOut(w, me, log, t, locked, rpc);
    TradeSoundGrows(w, me, log, later, t);
    HeardExtends(later, t, r.trade);
  }

  lemma ReplyEntriesSound(w: World, me: string, log: seq<Entry>, t: TradeState, locked: set<OutPoint>, rpc: Rpc)
    requires TradeSound(w, me, log, t) && LawfulAnswers(w, me, t, locked, rpc)
    ensures var entries := ReplyLog(HasReply(w, me, t, locked, rpc), rpc);
            forall i :: 0 <= i < |entries| ==> EntrySound(w, me, log + entries, entries[i])
  {
    hide HasReply, Heard, Vetted, CastOut, SellerSigned, BuyerSigned, Lawful, LawfulView, EveryInputSigned;
    var r := HasReply(w, me, t, locked, rpc);
    ReplySound(w, me, log, t, locked, rpc);
    ReplyHasShape(w, me, t, locked, rpc);
    ReplyDecreases(w, me, t, locked, rpc);
    if r.broadcast.Some? {
      BroadcastIsSigned(w, me, t, locked, rpc);
      BroadcastIsTheirs(w, me, t, locked, rpc);
      ReplyKeepsTheirs(w, me, t, locked, rpc);
    }
  }

  // ---------------------------------------------------------------------------
  // Steps of the node.

  lemma NewTradeSound(w: World, me: string, log: seq<Entry>, o: Order, units: UInt64, counterparty: string, now: int)
    requires counterparty != me
    ensures TradeSound(w, me, log, NewTrade(o, units, counterparty, now))
  {
  }

  /** Taking an order, spelt out. */
  lemma TakeIs(w: World, n: Node, o: Order, units: Int64, now: int, rpc: Rpc, t: TradeState, r: Result, msg: Message)
    requires t == NewTrade(o, ToUInt64(units), o.account.GetOr(""), now)
    requires r == HasReply(w, n.account, t, n.wallet, rpc)
    requires msg == (if r.outcome.Sent? then r.outcome.msg else BasicMessage(t))
                      .(takingOrder := Some(TakingOrder(o.id.GetOr(0), t.units)))
    ensures var m := Take(w, n, o, units, now, rpc);
            && m.account == n.account && m.jobs == n.jobs
            && ((m.trades == n.trades && m.log == n.log
                 && (m.wallet == n.wallet || (r.outcome.Threw? && m.wallet == r.locked)))
                || (!r.outcome.Threw? && !r.outcome.Died? && m.wallet == r.locked && o.account.GetOr("") != n.account
                    && m.trades == n.trades + [Numbered(n.nextSerial, r.trade)]
                    && m.log == n.log + ReplyLog(r.(outcome := Sent(msg)), rpc)))
  {
    hide HasReply, CheckOrder, ReplyLog;
  }

  lemma TakeSound(w: World, n: Node, o: Order, units: Int64, now: int, rpc: Rpc)
    requires Sound(w, n) && LawfulStep(w, n, TakeOrder(o, units, now, rpc))
    ensures Sound(w, Take(w, n, o, units, now, rpc))
  {
    hide HasReply, TradeSound, EntrySound, Take, ReplyLog;
    var m := Take(w, n, o, units, now, rpc);
    var t := NewTrade(o, ToUInt64(units), o.account.GetOr(""), now);
    var r := HasReply(w, n.account, t, n.wallet, rpc);
    var msg := (if r.outcome.Sent? then r.outcome.msg else BasicMessage(t))
                   .(takingOrder := Some(TakingOrder(o.id.GetOr(0), t.units)));
    TakeIs(w, n, o, units, now, rpc, t, r, msg);
    if m.trades != n.trades {
      NewTradeSound(w, n.account, n.log, o, ToUInt64(units), o.account.GetOr(""), now);
      FirstReply(w, n.account, n.log, t, n.wallet, rpc, msg);
    }
    SoundFrom(w, n, m);
  }

  /** The first message of a taker, with the order it takes. */
  lemma FirstReply(w: World, me: string, log: seq<Entry>, t: TradeState, locked: set<OutPoint>, rpc: Rpc, msg: Message)
    requires TradeSound(w, me, log, t) && LawfulAnswers(w, me, t, locked, rpc)
    requires t == NewTrade(t.order, t.units, t.counterparty, t.startTime)
    requires var r := HasReply(w, me, t, locked, rpc);
             msg == (if r.outcome.Sent? then r.outcome.msg else BasicMessage(t)).(takingOrder := msg.takingOrder)
    ensures var r := HasReply(w, me, t, locked, rpc);
            var entries := ReplyLog(r.(outcome := Sent(msg)), rpc);
            TradeSound(w, me, log + entries, r.trade)
            && forall i :: 0 <= i < |entries| ==> EntrySound(w, me, log + entries, entries[i])
  {
    hide Consistent;
    var r := HasReply(w, me, t, locked, rpc);
    ReplyKeepsConsistent(w, me, t, locked, rpc);
    assert ReplyLog(r.(outcome := Sent(msg)), rpc) == [Replied(r.trade, msg)];
    assert r.trade.theirPsbt.None? && r.trade.ourPsbt.None? && r.trade.counterparty == t.counterparty;
    assert msg.counterparty == r.trade.counterparty && msg.identifier == GetIdentifier(r.trade) && msg.psbt.None?;
  }

  /** Handling a matching message, spelt out. */
  lemma DeliverIs(w: World, n: Node, msg: Message, rpc: Rpc)
    requires Sound(w, n) && FindMatch(n.trades, msg, 0) < |n.trades|
    ensures var i := FindMatch(n.trades, msg, 0);
            var t := HandleMessage(n.account, n.trades[i].trade, msg);
            && UsableSellerData(n.account, t)
            && var (r, m) := (HasReply(w, n.account, t, n.wallet, rpc), Deliver(w, n, msg, rpc));
            && m.account == n.account && m.jobs == n.jobs && m.wallet == r.locked
            && m.trades == n.trades[i := n.trades[i].(trade := r.trade)]
            && m.log == n.log + [Received(msg)] + ReplyLog(r, rpc)
  {
    hide HandleMessage, HasReply, ReplyLog;
    var i := FindMatch(n.trades, msg, 0);
    assert TradeSound(w, n.account, n.log, n.trades[i].trade);
    HandleKeepsConsistent(w, n.account, n.trades[i].trade, msg);
  }

  lemma DeliverSound(w: World, n: Node, msg: Message, rpc: Rpc)
    requires Sound(w, n) && LawfulStep(w, n, AnyMessage(msg, rpc))
    ensures Sound(w, Deliver(w, n, msg, rpc))
  {
    hide Sound, LawfulStep;
    if FindMatch(n.trades, msg, 0) < |n.trades| {
      MatchSound(w, n, msg, rpc);
    } else {
      hide TradeSound;
      SoundFrom(w, n, Deliver(w, n, msg, rpc));
    }
  }

  lemma MatchSound(w: World, n: Node, msg: Message, rpc: Rpc)
    requires Sound(w, n) && LawfulStep(w, n, AnyMessage(msg, rpc)) && FindMatch(n.trades, msg, 0) < |n.trades|
    ensures Sound(w, Deliver(w, n, msg, rpc))
  {
    hide TradeSound, EntrySound, JobSound, HandleMessage, HasReply, Deliver, Lawful, LawfulView, ReplyLog;
    var (m, i) := (Deliver(w, n, msg, rpc), FindMatch(n.trades, msg, 0));
    var (t, log) := (HandleMessage(n.account, n.trades[i].trade, msg), n.log + [Received(msg)]);
    HandledSound(w, n.account, n.log, n.trades[i].trade, msg);
    HandleExtends(n.account, n.trades[i].trade, msg);
    DeliverIs(w, n, msg, rpc);
    ReplySound(w, n.account, log, t, n.wallet, rpc);
    ReplyEntriesSound(w, n.account, log, t, n.wallet, rpc);
    EntriesSound(w, n.account, n.log, msg, ReplyLog(HasReply(w, n.account, t, n.wallet, rpc), rpc), m.log);
    SoundFrom(w, n, m);
  }

  lemma EntriesSound(w: World, me: string, log: seq<Entry>, msg: Message, entries: seq<Entry>, later: seq<Entry>)
    requires later == log + [Received(msg)] + entries
    requires forall i :: 0 <= i < |entries| ==> EntrySound(w, me, later, entries[i])
    ensures forall k :: |log| <= k < |later| ==> EntrySound(w, me, later, later[k])
  {
    hide TradeSound;
  }

  lemma UpdateTickSound(w: World, n: Node, now: int, checks: nat -> ChainCheck, limits: Limits)
    requires Sound(w, n)
    ensures Sound(w, UpdateAndArchive(n, now, checks, limits))
  {
    var m := UpdateAndArchive(n, now, checks, limits);
    var updated := UpdateEach(n.trades, now, checks, limits);
    hide TradeSound, Updated, Select, HandleAll;
    forall i | 0 <= i < |updated| ensures TradeSound(w, n.account, n.log, updated[i].trade) {
      UpdatedSound(w, n.account, n.log, n.trades[i].trade, now, checks(i), limits);
    }
    hide Sound, UpdateEach;
    ArchivedSound(w, n, updated, m);
  }

  lemma {:induction false} ArchivedSound(w: World, n: Node, updated: seq<Numbered>, m: Node)
    requires Sound(w, n) && forall i :: 0 <= i < |updated| ==> TradeSound(w, n.account, n.log, updated[i].trade)
    requires m.account == n.account && m.log == n.log
    requires m.trades == Select(updated, false) && m.jobs == n.jobs + HandleAll(Select(updated, true))
    ensures Sound(w, m)
  {
    hide TradeSound, Select, HandleAll;
    var final := Select(updated, true);
    SelectFrom(updated, true);
    SelectFrom(updated, false);
    HandleAllIs(final);
    forall i | 0 <= i < |m.trades| ensures TradeSound(w, n.account, n.log, m.trades[i].trade) {
      assert m.trades[i] in updated;
    }
    forall i | 0 <= i < |final| ensures JobSound(w, n.account, n.log, HandleAll(final)[i]) {
      assert final[i] in updated;
    }
  }

  lemma OrderTakenSound(w: World, n: Node, i: nat, now: int)
    requires Sound(w, n) && i < |n.jobs| && n.jobs[i].Taken? && n.jobs[i].msg.takingOrder.Some?
    ensures Sound(w, OrderTaken(n, i, now))
  {
    hide TradeSound, CheckOrder;
    var m := OrderTaken(n, i, now);
    var Taken(o, msg) := n.jobs[i];
    if msg.counterparty != n.account {
      NewTradeSound(w, n.account, n.log, o, ToUInt64(ToInt64(msg.takingOrder.value.units)), msg.counterparty, now);
    }
    SoundFrom(w, n, m);
  }

  lemma HandleSound(w: World, n: Node, i: nat)
    requires Sound(w, n) && i < |n.jobs| && n.jobs[i].Finalised?
    ensures Sound(w, Handle(n, i))
  {
    hide TradeSound, Handle, GetRole, CanUnlock, Rest;
    var item := n.jobs[i].item;
    HandleIs(n, i);
    assert JobSound(w, n.account, n.log, n.jobs[i]);
    TradeSoundGrows(w, n.account, n.log, n.log + [Handled(item.serial, item.trade)], item.trade);
    SoundFrom(w, n, Handle(n, i));
  }

  lemma ContinueSound(w: World, n: Node, i: nat, now: int, valid: bool)
    requires Sound(w, n) && i < |n.jobs|
    ensures Sound(w, ContinueJob(n, i, now, valid))
  {
    hide TradeSound, JobSound, EntrySound, Handle, OrderTaken, UnlockFor, Recreate, ReleaseSet, Sound;
    var m := ContinueJob(n, i, now, valid);
    match n.jobs[i]
    case Taken(_, msg) => if msg.takingOrder.Some? { OrderTakenSound(w, n, i, now); }
    case Finalised(_) => HandleSound(w, n, i);
    case Refused(id) => UnlockSound(w, n, i, id);
    case Releasing(_) => SoundFrom(w, n, m);
    case Recreating(_, _) => RecreateSound(w, n, i, valid);
  }

  lemma UnlockSound(w: World, n: Node, i: nat, id: UInt64)
    requires Sound(w, n) && i < |n.jobs|
    ensures Sound(w, UnlockFor(n, i, id, []))
  {
    hide Sound, TradeSound, JobSound, EntrySound, CanUnlock, Unlocked;
    SoundFrom(w, n, UnlockFor(n, i, id, []));
  }

  lemma RecreateSound(w: World, n: Node, i: nat, valid: bool)
    requires Sound(w, n) && i < |n.jobs| && n.jobs[i].Recreating?
    ensures Sound(w, Recreate(n, i, valid))
  {
    hide Sound, TradeSound, JobSound;
    SoundFrom(w, n, Recreate(n, i, valid));
  }

  lemma StepSound(w: World, n: Node, e: Event)
    requires Sound(w, n) && LawfulStep(w, n, e)
    ensures Sound(w, Step(w, n, e))
  {
    hide Sound, TradeSound;
    if !n.crashed {
      match e
      case AddOrder(o) => SoundFrom(w, n, Post(n, o));
      case CancelOrders(ids) => SoundFrom(w, n, Drop(n, ids));
      case TakeOrder(o, units, now, rpc) => TakeSound(w, n, o, units, now, rpc);
      case TakingMessage(msg) => SoundFrom(w, n, StartTaking(n, msg));
      case AnyMessage(msg, rpc) => DeliverSound(w, n, msg, rpc);
      case UpdateTick(now, checks, limits) => UpdateTickSound(w, n, now, checks, limits);
      case Continue(i, now, valid) => if i < |n.jobs| { ContinueSound(w, n, i, now, valid); }
    }
  }

  /** In every run with lawful answers all trades are consistent, with the record to show for it. */
  lemma {:induction false} RunsAreSound(w: World, account: string, wallet: set<OutPoint>, events: seq<Event>)
    requires LawfulRun(w, NewNode(account, wallet), events)
    ensures Sound(w, Run(w, NewNode(account, wallet), events))
  {
    if events != [] {
      var k := |events| - 1;
      RunsAreSound(w, account, wallet, events[..k]);
      hide Sound, Step;
      StepSound(w, Run(w, NewNode(account, wallet), events[..k]), events[k]);
    }
  }

  /** A maker's trade beyond the negotiation has been broadcast, with every input signed. */
  lemma PendingWasBroadcast(w: World, n: Node, i: nat)
    requires Sound(w, n) && i < |n.trades|
    requires GetRole(n.account, n.trades[i].trade) == Maker && n.trades[i].trade.state !in {Initiated, Abandoned}
    ensures var t := n.trades[i].trade;
            t.ourPsbt.Some? && exists t' :: Broadcast(t', t.ourPsbt.value.tx) in n.log && t'.order == t.order
                                            && t'.ourPsbt == t.ourPsbt && EveryInputSigned(n.account, t')
  {
    hide Consistent, Heard, Vetted, EveryInputSigned;
    var t := n.trades[i].trade;
    assert TradeSound(w, n.account, n.log, t);
    var t' :| Broadcast(t', t.ourPsbt.value.tx) in n.log && Extends(t', t);
    var k :| 0 <= k < |n.log| && n.log[k] == Broadcast(t', t.ourPsbt.value.tx);
    assert EntrySound(w, n.account, n.log, n.log[k]);
  }
}
