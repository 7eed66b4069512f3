/**
 * A trade of a node gets on: its first message goes out, messages for it reach
 * it and nothing else disturbs it.
 */
module NodeProgress {
  import opened Amounts
  import opened Chain
  import opened Checker
  import Completion
  import opened NodeArchive
  import opened NodeCrashes
  import opened NodeIdentifiers
  import opened NodeOrders
  import opened NodeTrades
  import opened Nodes
  import opened Orders
  import opened OwnOrders
  import opened Psbts
  import opened TradeRules
  import opened TradeRuns
  import opened Wrappers

  /** A trade is the first one with its identifier, so it gets the messages for it. */
  predicate IsFirst(trades: seq<Numbered>, i: nat, t: TradeState) {
    && i < |trades| && trades[i].trade == t
    && forall j :: 0 <= j < i ==> GetIdentifier(trades[j].trade) != GetIdentifier(t)
  }

  ghost predicate Holds(n: Node, t: TradeState) {
    !n.crashed && exists i :: IsFirst(n.trades, i, t)
  }

  /** A step fails no CHECK, brings no message for a trade, and does not time it out. */
  predicate Spares(n: Node, e: Event, t: TradeState) {
    && !FailsCheck(n, e)
    && match e
       case AnyMessage(msg, _) => !Matches(t, msg)
       case UpdateTick(now, _, limits) => (now - t.startTime) * 1000 <= limits.timeoutMs
       case _ => true
  }

  lemma MoreTrades(s: seq<Numbered>, more: seq<Numbered>, i: nat, t: TradeState)
    requires IsFirst(s, i, t) && s <= more
    ensures IsFirst(more, i, t)
  {
    forall j | 0 <= j < i ensures GetIdentifier(more[j].trade) != GetIdentifier(t) {
      assert more[j] == s[j];
    }
  }

  lemma ContinueAdds(n: Node, i: nat, now: int, valid: bool)
    requires i < |n.jobs|
    ensures n.trades <= ContinueJob(n, i, now, valid).trades
  {
    hide UnlockFor, Handle, Recreate, CheckOrder, GetRole, CanUnlock, ReleaseSet;
    match n.jobs[i]
    case Taken(_, _) =>
    case Refused(id) => UnlockKeepsTrades(n, i, id);
    case Finalised(_) => HandleIs(n, i);
    case Releasing(_) =>
    case Recreating(_, _) => RecreateKeepsTrades(n, i, valid);
  }

  lemma DeliverSpares(w: World, n: Node, msg: Message, rpc: Rpc, i: nat, t: TradeState)
    requires IsFirst(n.trades, i, t) && !Matches(t, msg)
    ensures IsFirst(Deliver(w, n, msg, rpc).trades, i, t)
  {
    hide Deliver, Reply, HandleMessage;
    DeliverEffect(w, n, msg, rpc);
  }

  /** Archiving others leaves the first trade with an identifier the first. */
  lemma {:induction false} SelectSpares(s: seq<Numbered>, i: nat, t: TradeState) returns (k: nat)
    requires IsFirst(s, i, t) && !IsFinalised(t)
    ensures IsFirst(Select(s, false), k, t)
  {
    hide IsFinalised, GetIdentifier;
    var l := |s| - 1;
    if i == l {
      var front := Select(s[..l], false);
      k := |front|;
      SelectFrom(s[..l], false);
      forall j | 0 <= j < k ensures GetIdentifier(Select(s, false)[j].trade) != GetIdentifier(t) {
        assert Select(s, false)[j] == front[j] && front[j] in s[..l];
      }
    } else {
      k := SelectSpares(s[..l], i, t);
      MoreTrades(Select(s[..l], false), Select(s, false), k, t);
    }
  }

  lemma UpdateTickSpares(n: Node, now: int, checks: nat -> ChainCheck, limits: Limits, i: nat, t: TradeState)
    requires IsFirst(n.trades, i, t) && t.state == Initiated && (now - t.startTime) * 1000 <= limits.timeoutMs
    ensures exists k :: IsFirst(UpdateAndArchive(n, now, checks, limits).trades, k, t)
  {
    hide Select, HandleAll, ArchiveAll;
    var updated := UpdateEach(n.trades, now, checks, limits);
    forall j | 0 <= j < i ensures GetIdentifier(updated[j].trade) != GetIdentifier(t) {
      UpdatedKeepsOrder(n.trades[j].trade, now, checks(j), limits);
    }
    assert updated[i].trade == t && IsFirst(updated, i, t);
    var k := SelectSpares(updated, i, t);
    assert UpdateAndArchive(n, now, checks, limits).trades == Select(updated, false);
  }

  /** Steps that spare a trade leave it where it is. */
  lemma SparedStays(w: World, n: Node, e: Event, t: TradeState)
    requires Sound(w, n) && LawfulStep(w, n, e) && Holds(n, t) && t.state == Initiated && Spares(n, e, t)
    ensures Holds(Step(w, n, e), t)
  {
    hide Sound, LawfulStep, FailsCheck, Take, Deliver, UpdateAndArchive, ContinueJob, Matches, IsFirst;
    var i: nat :| IsFirst(n.trades, i, t);
    var m := Step(w, n, e);
    StepCrashesExactly(w, n, e);
    match e
    case AnyMessage(msg, rpc) => DeliverSpares(w, n, msg, rpc, i, t);
    case UpdateTick(now, checks, limits) => UpdateTickSpares(n, now, checks, limits, i, t);
    case TakeOrder(o, units, now, rpc) =>
      TakeEffect(w, n, o, units, now, rpc);
      MoreTrades(n.trades, m.trades, i, t);
    case Continue(j, now, valid) =>
      if j < |n.jobs| { ContinueAdds(n, j, now, valid); }
      MoreTrades(n.trades, m.trades, i, t);
    case AddOrder(_) =>
    case CancelOrders(_) =>
    case TakingMessage(_) =>
  }

  // ---------------------------------------------------------------------------
  // The steps of the trade itself.

  /** What a step sends: the message of a new entry. */
  ghost predicate SentIn(n: Node, m: Node, msg: Message) {
    n.log <= m.log && exists k :: |n.log| <= k < |m.log| && m.log[k].Replied? && m.log[k].msg == msg
  }

  lemma SentAmong(n: Node, m: Node, entries: seq<Entry>, msg: Message)
    requires m.log == n.log + entries
    ensures SentIn(n, m, msg) <==> exists e :: e in entries && e.Replied? && e.msg == msg
  {
    if e :| e in entries && e.Replied? && e.msg == msg {
      var k :| 0 <= k < |entries| && entries[k] == e;
      assert m.log[|n.log| + k] == e;
    }
    if SentIn(n, m, msg) {
      var k :| |n.log| <= k < |m.log| && m.log[k].Replied? && m.log[k].msg == msg;
      assert m.log[k] == entries[k - |n.log|];
    }
  }

  lemma ReplyEntries(r: Result, rpc: Rpc)
    ensures forall e :: e in ReplyLog(r, rpc) && e.Replied? ==> r.outcome == Sent(e.msg)
    ensures r.outcome.Sent? ==> Replied(r.trade, r.outcome.msg) in ReplyLog(r, rpc)
    ensures r.broadcast.Some? ==> Broadcast(r.trade, r.broadcast.value) in ReplyLog(r, rpc)
  {
  }

  /** The entries of one search for a reply have its one message. */
  lemma SentOnce(n: Node, m: Node, before: seq<Entry>, r: Result, rpc: Rpc)
    requires m.log == n.log + before + ReplyLog(r, rpc) && forall e :: e in before ==> !e.Replied?
    ensures forall msg :: SentIn(n, m, msg) <==> r.outcome == Sent(msg)
    ensures r.broadcast.Some? ==> Broadcast(r.trade, r.broadcast.value) in m.log
  {
    hide ReplyLog, SentIn;
    ReplyEntries(r, rpc);
    assert m.log == n.log + (before + ReplyLog(r, rpc));
    forall msg ensures SentIn(n, m, msg) <==> r.outcome == Sent(msg) {
      SentAmong(n, m, before + ReplyLog(r, rpc), msg);
    }
  }

  /** The calls that a step makes, from the node's wallet. */
  function CallAt(n: Node, rpc: Rpc): Completion.Call {
    Completion.Call(n.wallet, rpc)
  }

  lemma FirstMatches(n: Node, i: nat, t: TradeState, msg: Message)
    requires IsFirst(n.trades, i, t) && Matches(t, msg)
    ensures FindMatch(n.trades, msg, 0) == i
  {
    hide GetIdentifier;
    var f := FindMatch(n.trades, msg, 0);
    assert Matches(n.trades[i].trade, msg) && f <= i;
    assert forall j :: 0 <= j < i ==> !Matches(n.trades[j].trade, msg);
  }

  /** A message for a trade: its turn is taken, and what it sends is what the node sends. */
  lemma TurnTaken(w: World, n: Node, t: TradeState, msg: Message, rpc: Rpc)
    requires Sound(w, n) && LawfulStep(w, n, AnyMessage(msg, rpc)) && Holds(n, t) && Matches(t, msg)
    ensures Consistent(w, n.account, t) && Completion.LawfulCall(w, n.account, t.counterparty, CallAt(n, rpc))
    ensures var (r, m) := (Completion.Turn(w, n.account, t, msg, CallAt(n, rpc)), Step(w, n, AnyMessage(msg, rpc)));
            && (!r.outcome.Died? ==> Holds(m, r.trade))
            && (forall reply :: SentIn(n, m, reply) <==> r.outcome == Sent(reply))
            && (r.broadcast.Some? ==> Broadcast(r.trade, r.broadcast.value) in m.log)
  {
    hide HandleMessage, HasReply, Consistent, Deliver, ReplyLog, Lawful, LawfulView, SentIn;
    var i: nat :| IsFirst(n.trades, i, t);
    FirstMatches(n, i, t, msg);
    assert TradeSound(w, n.account, n.log, n.trades[i].trade);
    var c := CallAt(n, rpc);
    assert Completion.LawfulCall(w, n.account, t.counterparty, c);
    DeliverIs(w, n, msg, rpc);
    DeliverEffect(w, n, msg, rpc);
    DeliverCrashes(w, n, msg, rpc);
    var r := Completion.Turn(w, n.account, t, msg, c);
    SentOnce(n, Step(w, n, AnyMessage(msg, rpc)), [Received(msg)], r, rpc);
    if !r.outcome.Died? {
      assert IsFirst(Deliver(w, n, msg, rpc).trades, i, r.trade);
    }
  }

  lemma DeliverCrashes(w: World, n: Node, msg: Message, rpc: Rpc)
    requires FindMatch(n.trades, msg, 0) < |n.trades|
    ensures var t := HandleMessage(n.account, n.trades[FindMatch(n.trades, msg, 0)].trade, msg);
            Deliver(w, n, msg, rpc).crashed == Reply(w, n.account, t, n.wallet, rpc).outcome.Died?
  {
    hide HandleMessage, Reply, ReplyLog;
  }

  /** An order is taken: a new trade gets on with its first message, if the wallet does its part. */
  lemma TakeTaken(w: World, n: Node, o: Order, units: Int64, now: int, rpc: Rpc)
    requires LawfulStep(w, n, TakeOrder(o, units, now, rpc)) && StartsTrade(n, o, units, rpc)
    requires !IsActive(n.trades, Identifier(o.account.GetOr(""), o.id.GetOr(0)))
    ensures var t := NewTrade(o, ToUInt64(units), o.account.GetOr(""), now);
            var ((msg, t1), m) := (Completion.TakeOrder(w, n.account, t, CallAt(n, rpc)),
                                   Step(w, n, TakeOrder(o, units, now, rpc)));
            Holds(m, t1) && forall sent :: SentIn(n, m, sent) <==> sent == msg
  {
    hide HasReply, CheckOrder, ReplyLog, Take, LawfulStep, SentIn;
    var t := NewTrade(o, ToUInt64(units), o.account.GetOr(""), now);
    var r := HasReply(w, n.account, t, n.wallet, rpc);
    var msg := (if r.outcome.Sent? then r.outcome.msg else BasicMessage(t))
                   .(takingOrder := Some(TakingOrder(o.id.GetOr(0), t.units)));
    var m := Take(w, n, o, units, now, rpc);
    TakeIs(w, n, o, units, now, rpc, t, r, msg);
    TradeStartsExactly(w, n, o, units, now, rpc);
    TakeDoesNotCrash(w, n, o, units, now, rpc);
    TakeIdentifier(w, n, o, units, now, rpc);
    SentOnce(n, m, [], r.(outcome := Sent(msg)), rpc);
    assert n.log + [] == n.log;
    assert IsFirst(m.trades, |n.trades|, r.trade);
  }

  /** The order of a take in progress is traded on. */
  lemma OrderIsTaken(w: World, n: Node, i: nat, now: int, valid: bool, o: Order, msg: Message)
    requires Exclusive(n) && !n.crashed && i < |n.jobs| && n.jobs[i] == Taken(o, msg) && msg.takingOrder.Some?
    requires CheckOrder(o, ToInt64(msg.takingOrder.value.units)) && msg.counterparty != n.account
    ensures Holds(Step(w, n, Continue(i, now, valid)),
                  NewTrade(o, msg.takingOrder.value.units, msg.counterparty, now))
  {
    hide Exclusive, CheckOrder;
    var m := OrderTaken(n, i, now);
    var (k, t) := (|n.trades|, NewTrade(o, msg.takingOrder.value.units, msg.counterparty, now));
    assert ToUInt64(ToInt64(msg.takingOrder.value.units)) == msg.takingOrder.value.units;
    ShapeOf(n, i);
    OrderTakenKeeps(n, i, now);
    assert m.trades[k].trade == t && GetRole(m.account, t) == Maker;
    forall j | 0 <= j < k ensures GetIdentifier(m.trades[j].trade) != GetIdentifier(t) {
      MakersDiffer(m, j, k);
    }
    assert IsFirst(m.trades, k, t);
  }
}
