/**
 * Two nodes that trade with each other come to an end: if six events happen, in
 * order and amid whatever else does not disturb the trade, it is broadcast.
 */
module NetworkCompletion {
  import opened Amounts
  import opened Chain
  import opened Checker
  import opened Completion
  import opened NodeArchive
  import opened NodeCrashes
  import opened NodeIdentifiers
  import opened NodeOrders
  import opened NodeProgress
  import opened NodeTrades
  import opened Networks
  import opened Nodes
  import opened Orders
  import opened OwnOrders
  import opened Psbts
  import opened TradeRules
  import opened TradeRuns
  import opened Wrappers

  /** A run of two nodes, in which one of them is the maker of a trade. */
  datatype Story = Story(world: World, start: Net, events: seq<NetEvent>, makerIsA: bool) {
    ghost function NetAt(k: nat): Net
      requires k <= |events|
    {
      NetRun(world, start, events[..k])
    }

    ghost function NodeAt(k: nat, maker: bool): Node
      requires k <= |events|
    {
      if maker == makerIsA then NetAt(k).a else NetAt(k).b
    }

    ghost function Maker(k: nat): Node
      requires k <= |events|
    {
      NodeAt(k, true)
    }

    ghost function Taker(k: nat): Node
      requires k <= |events|
    {
      NodeAt(k, false)
    }

    /** What happens at one of the nodes, if it is at that one. */
    function EventAt(k: nat, maker: bool): Option<Event>
      requires k < |events|
    {
      match events[k]
      case AtA(e) => if maker == makerIsA then Some(e) else None
      case AtB(e) => if maker == makerIsA then None else Some(e)
    }

    ghost function Account(maker: bool): string {
      NodeAt(0, maker).account
    }

    ghost predicate Possible() {
      && start.a == NewNode(start.a.account, start.a.wallet) && start.b == NewNode(start.b.account, start.b.wallet)
      && start.a.account != start.b.account && PossibleRun(world, start, events)
      && forall k, maker :: 0 <= k < |events| && EventAt(k, maker).Some? ==> UnlockedAdds(EventAt(k, maker).value)
    }
  }

  /** What is needed of each node at each time. */
  ghost predicate InOrder(s: Story, k: nat, maker: bool)
    requires k <= |s.events|
  {
    && Sound(s.world, s.NodeAt(k, maker)) && Exclusive(s.NodeAt(k, maker))
    && Networks.Honest(s.NodeAt(k, maker), s.NodeAt(k, !maker)) && s.NodeAt(k, maker).account == s.Account(maker)
  }

  lemma NextNode(s: Story, k: nat, maker: bool)
    requires k < |s.events|
    ensures s.NodeAt(k + 1, maker) == match s.EventAt(k, maker)
                                      case Some(e) => Step(s.world, s.NodeAt(k, maker), e)
                                      case None => s.NodeAt(k, maker)
  {
    hide Step;
    assert s.events[..k + 1][..k] == s.events[..k];
  }

  lemma {:induction false} PossiblePrefix(s: Story, k: nat)
    requires s.Possible() && k <= |s.events|
    ensures PossibleRun(s.world, s.start, s.events[..k])
    ensures k < |s.events| ==> PossibleStep(s.world, s.NetAt(k), s.events[k])
    decreases |s.events| - k
  {
    hide PossibleStep, NetRun;
    if k == |s.events| {
      assert s.events[..k] == s.events;
    } else {
      PossiblePrefix(s, k + 1);
      assert s.events[..k + 1][..k] == s.events[..k] && s.events[..k + 1][k] == s.events[k];
    }
  }

  lemma LawfulAt(s: Story, k: nat, maker: bool)
    requires s.Possible() && k < |s.events| && s.EventAt(k, maker).Some?
    ensures LawfulStep(s.world, s.NodeAt(k, maker), s.EventAt(k, maker).value)
    ensures UnlockedAdds(s.EventAt(k, maker).value)
  {
    hide LawfulStep, Brings, NetRun, PossibleRun;
    PossiblePrefix(s, k);
  }

  lemma {:induction false} AlwaysInOrder(s: Story, k: nat, maker: bool)
    requires s.Possible() && k <= |s.events|
    ensures InOrder(s, k, maker)
  {
    hide Sound, Exclusive, Networks.Honest, NetRun, PossibleRun, Step, UnlockedAdds;
    PossiblePrefix(s, k);
    NetRunsKeep(s.world, s.start.a, s.start.b, s.events[..k]);
    if k == 0 {
      StartInOrder(s, maker);
    } else {
      AlwaysInOrder(s, k - 1, maker);
      NextNode(s, k - 1, maker);
      if s.EventAt(k - 1, maker).Some? {
        LawfulAt(s, k - 1, maker);
        StepKeepsExclusive(s.world, s.NodeAt(k - 1, maker), s.EventAt(k - 1, maker).value);
        StepGrows(s.world, s.NodeAt(k - 1, maker), s.EventAt(k - 1, maker).value);
      }
    }
  }

  lemma StartInOrder(s: Story, maker: bool)
    requires s.Possible()
    ensures Exclusive(s.NodeAt(0, maker))
  {
    hide Exclusive, PossibleRun;
    assert s.events[..0] == [];
    OrdersAreExclusive(s.world, s.NodeAt(0, maker).account, s.NodeAt(0, maker).wallet, []);
  }

  /** A trade stays while all that happens at its node spares it. */
  lemma {:induction false} Stays(s: Story, maker: bool, t: TradeState, i: nat, j: nat)
    requires s.Possible() && i <= j <= |s.events| && Holds(s.NodeAt(i, maker), t) && t.state == Initiated
    requires forall k :: i <= k < j && s.EventAt(k, maker).Some? ==>
               Spares(s.NodeAt(k, maker), s.EventAt(k, maker).value, t)
    ensures Holds(s.NodeAt(j, maker), t)
  {
    hide Sound, Exclusive, Networks.Honest, NetRun, PossibleRun, Step, Holds, Spares, LawfulStep;
    if i < j {
      Stays(s, maker, t, i, j - 1);
      AlwaysInOrder(s, j - 1, maker);
      NextNode(s, j - 1, maker);
      if s.EventAt(j - 1, maker).Some? {
        LawfulAt(s, j - 1, maker);
        SparedStays(s.world, s.NodeAt(j - 1, maker), s.EventAt(j - 1, maker).value, t);
      }
    }
  }

  // ---------------------------------------------------------------------------
  // A trade.

  /** Six events of a trade, by when they happen: what the taker takes, the messages and the answers. */
  datatype Plan = Plan(
    take: nat, lock: nat, add: nat, first: nat, second: nat, third: nat,
    order: Order, units: Int64, takenAt: int, addedAt: int, job: nat, valid: bool,
    m1: Message, m2: Message, m3: Message,
    rpc0: Rpc, rpc1: Rpc, rpc2: Rpc, rpc3: Rpc)

  /**
   * The taker takes the order; the maker locks it, adds the trade and looks at
   * the message; the taker looks at what they reply, and the maker at the answer.
   */
  ghost predicate Happens(s: Story, p: Plan) {
    && p.take < p.lock < p.add < p.first < p.second < p.third < |s.events|
    && s.EventAt(p.take, false) == Some(Event.TakeOrder(p.order, p.units, p.takenAt, p.rpc0))
    && s.EventAt(p.lock, true) == Some(TakingMessage(p.m1))
    && s.EventAt(p.add, true) == Some(Continue(p.job, p.addedAt, p.valid))
    && s.EventAt(p.first, true) == Some(AnyMessage(p.m1, p.rpc1))
    && s.EventAt(p.second, false) == Some(AnyMessage(p.m2, p.rpc2))
    && s.EventAt(p.third, true) == Some(AnyMessage(p.m3, p.rpc3))
  }

  /** A message is from somebody, and what a step of theirs has sent, if it has sent anything. */
  ghost predicate Carries(before: Node, after: Node, from: string, msg: Message) {
    msg.counterparty == from && forall sent :: SentIn(before, after, sent) ==> msg == Incoming(from, sent)
  }

  ghost predicate MessagesArrive(s: Story, p: Plan)
    requires Happens(s, p)
  {
    && Carries(s.Taker(p.take), s.Taker(p.take + 1), s.Account(false), p.m1)
    && Carries(s.Maker(p.first), s.Maker(p.first + 1), s.Account(true), p.m2)
    && Carries(s.Taker(p.second), s.Taker(p.second + 1), s.Account(false), p.m3)
  }

  /** The maker's order as it is locked for the taker. */
  ghost function LockedCopy(s: Story, p: Plan): Order
    requires Happens(s, p)
  {
    var (orders, id) := (s.Maker(p.lock).orders, p.order.id.GetOr(0));
    if id in orders then Copy(s.Account(true), id, orders[id]) else p.order
  }

  /**
   * The taker may take the order, which is the maker's, and does not trade on it
   * yet. The maker has it and it is free. The total is one that the seller gets.
   */
  ghost predicate CanTrade(s: Story, p: Plan)
    requires Happens(s, p)
  {
    && !s.Taker(p.take).crashed && !s.Maker(p.lock).crashed && !s.Maker(p.add).crashed
    && p.order.account == Some(s.Account(true)) && CheckOrder(p.order, p.units)
    && !IsActive(s.Taker(p.take).trades, Identifier(s.Account(true), p.order.id.GetOr(0)))
    && CanLock(s.Maker(p.lock).orders, p.order.id.GetOr(0))
    && p.job < |s.Maker(p.add).jobs| && s.Maker(p.add).jobs[p.job] == Taken(LockedCopy(s, p), p.m1)
    && p.units > 0 && 0 <= Price(p.order) * p.units < TWO_63
  }

  /** Wallets and chain do their part at the four calls, and the seller's name output is free at their first one. */
  ghost predicate CallsWork(s: Story, p: Plan, nameOut: OutPoint)
    requires Happens(s, p)
  {
    var (maker, taker, sells) := (s.Account(true), s.Account(false), p.order.Type() == Ask);
    var seller := if sells then maker else taker;
    var (c0, c1) := (CallAt(s.Taker(p.take), p.rpc0), CallAt(s.Maker(p.first), p.rpc1));
    var (c2, c3) := (CallAt(s.Taker(p.second), p.rpc2), CallAt(s.Maker(p.third), p.rpc3));
    && Cooperative(s.world, taker, c0) && Cooperative(s.world, maker, c1) && Cooperative(s.world, taker, c2)
    && Cooperative(s.world, maker, c3)
    && Steady(seller, taker, nameOut, c0) && Steady(seller, maker, nameOut, c1) && Steady(seller, taker, nameOut, c2)
    && nameOut !in (if sells then c1 else c0).locked
  }

  /** Both sides of the trade as they are new. */
  ghost function TakersTrade(s: Story, p: Plan): TradeState {
    NewTrade(p.order, ToUInt64(p.units), s.Account(true), p.takenAt)
  }

  ghost function MakersTrade(s: Story, p: Plan): TradeState
    requires Happens(s, p)
  {
    NewTrade(LockedCopy(s, p), ToUInt64(p.units), s.Account(false), p.addedAt)
  }

  /** All other events at a node spare its trade while it goes on. */
  ghost predicate Undisturbed(s: Story, p: Plan)
    requires Happens(s, p)
  {
    && (forall k :: p.take < k < p.second && s.EventAt(k, false).Some? ==>
          Spares(s.Taker(k), s.EventAt(k, false).value, TakersTrade(s, p)))
    && (forall k :: p.add < k < p.third && k != p.first && s.EventAt(k, true).Some? ==>
          Spares(s.Maker(k), s.EventAt(k, true).value, MakersTrade(s, p)))
  }

  ghost predicate PendingOn(t: TradeState, tx: Tx) {
    t.state == Pending && t.ourPsbt.Some? && t.ourPsbt.value.tx == tx
  }

  /** Both trades are pending on a transaction which the maker has broadcast. */
  ghost predicate Completed(s: Story, p: Plan, tx: Tx)
    requires Happens(s, p)
  {
    && (exists t :: Holds(s.Taker(p.second + 1), t) && Extends(TakersTrade(s, p), t) && PendingOn(t, tx))
    && (exists u :: Holds(s.Maker(p.third + 1), u) && Extends(MakersTrade(s, p), u) && PendingOn(u, tx)
                    && Broadcast(u, tx) in s.Maker(p.third + 1).log)
  }

  // ---------------------------------------------------------------------------

  /** The taker's first message is for the trade. */
  lemma FirstMessage(w: World, me: string, t: TradeState, c: Call)
    requires IsNew(me, t)
    ensures var (m, t1) := Completion.TakeOrder(w, me, t, c);
            && m.identifier == GetIdentifier(t) && m.takingOrder == Some(TakingOrder(t.order.id.GetOr(0), t.units))
            && t1.state == Initiated && Extends(t, t1)
  {
  }

  /** Replies are for the trade, and only an initiated one gives any. */
  lemma TurnIsFor(w: World, me: string, t: TradeState, msg: Message, c: Call)
    requires Consistent(w, me, t) && LawfulCall(w, me, t.counterparty, c)
    ensures var r := Turn(w, me, t, msg, c);
            && (r.outcome.Sent? ==> r.outcome.msg.identifier == GetIdentifier(t))
            && (r.outcome.Sent? || r.broadcast.Some? ==> t.state == Initiated)
  {
    hide HandleMessage, HasReply, Consistent, Lawful, LawfulView;
    var t1 := HandleMessage(me, t, msg);
    HandleKeepsConsistent(w, me, t, msg);
    HandleExtends(me, t, msg);
    ReplyHasShape(w, me, t1, c.locked, c.rpc);
    if t1.state != Initiated {
      LateIsSilent(w, me, t1, c);
    }
  }

  lemma LateIsSilent(w: World, me: string, t: TradeState, c: Call)
    requires UsableSellerData(me, t) && t.state != Initiated
    ensures HasReply(w, me, t, c.locked, c.rpc) == Ends(t, c.locked, Silent)
  {
  }

  /** The taker's part at the start. */
  lemma TakerStarts(s: Story, p: Plan, nameOut: OutPoint)
    requires s.Possible() && Happens(s, p) && CanTrade(s, p) && CallsWork(s, p, nameOut) && MessagesArrive(s, p)
    ensures var (t, c) := (TakersTrade(s, p), CallAt(s.Taker(p.take), p.rpc0));
            var (m, t1) := Completion.TakeOrder(s.world, s.Account(false), t, c);
            && LawfulCall(s.world, s.Account(false), s.Account(true), c) && IsNew(s.Account(false), t)
            && Holds(s.Taker(p.take + 1), t1) && p.m1 == Incoming(s.Account(false), m)
  {
    hide CheckOrder, Sound, Exclusive, Networks.Honest, Step, NetRun, PossibleRun, Lawful, LawfulView, HasReply, Steady,
         IsActive, Holds;
    AlwaysInOrder(s, p.take, false);
    DifferentAccounts(s);
    NextNode(s, p.take, false);
    LawfulAt(s, p.take, false);
    assert StartsTrade(s.Taker(p.take), p.order, p.units, p.rpc0);
    TakeTaken(s.world, s.Taker(p.take), p.order, p.units, p.takenAt, p.rpc0);
  }

  lemma DifferentAccounts(s: Story)
    requires s.Possible()
    ensures s.Account(true) != s.Account(false)
  {
    assert s.events[..0] == [];
  }

  /** The maker's part at the start: a trade on the same terms. */
  lemma MakerStarts(s: Story, p: Plan, t1: TradeState)
    requires s.Possible() && Happens(s, p) && CanTrade(s, p)
    requires p.m1.takingOrder == Some(TakingOrder(p.order.id.GetOr(0), ToUInt64(p.units)))
    requires p.m1.counterparty == s.Account(false)
    requires t1.order == p.order && Holds(s.Taker(p.lock), t1)
    ensures Holds(s.Maker(p.add + 1), MakersTrade(s, p)) && IsNew(s.Account(true), MakersTrade(s, p))
    ensures Terms(LockedCopy(s, p)) == Terms(p.order)
  {
    hide CheckOrder, Sound, Exclusive, PostsInOrder, Step, NetRun, PossibleRun, IsActive, GetIdentifier, Spares;
    AlwaysInOrder(s, p.lock, true);
    AlwaysInOrder(s, p.lock, false);
    AlwaysInOrder(s, p.add, true);
    DifferentAccounts(s);
    assert p.order in AllOrders(s.Taker(p.lock));
    CopyHasTerms(s.Maker(p.lock), p.order);
    SameTermsAccepted(LockedCopy(s, p), p.order, p.units);
    NextNode(s, p.add, true);
    OrderIsTaken(s.world, s.Maker(p.add), p.job, p.addedAt, p.valid, LockedCopy(s, p), p.m1);
  }

  /** Both new trades are two sides of one, and the seller gets a total. */
  lemma BothSides(s: Story, p: Plan)
    requires s.Possible() && Happens(s, p) && CanTrade(s, p) && Terms(LockedCopy(s, p)) == Terms(p.order)
    ensures TwoSides(s.world, s.Account(true), MakersTrade(s, p), s.Account(false), TakersTrade(s, p))
    ensures Consistent(s.world, s.Account(true), MakersTrade(s, p))
    ensures GetOrderType(s.Account(true), MakersTrade(s, p)) == p.order.Type()
    ensures GetIdentifier(MakersTrade(s, p)) == GetIdentifier(TakersTrade(s, p))
  {
    hide CheckOrder, NetRun, PossibleRun, IsActive, GetTotalSat, LockedCopy;
    DifferentAccounts(s);
    var (t, u) := (TakersTrade(s, p), MakersTrade(s, p));
    TypesAreOpposite(s.Account(true), u, s.Account(false), t);
    SameParams(s.Account(true), u, s.Account(false), t);
    assert ToInt64(ToUInt64(p.units)) == p.units;
    TotalIsExact(Price(p.order), p.units);
  }

  lemma CallIsLawful(s: Story, k: nat, maker: bool, msg: Message, rpc: Rpc)
    requires s.Possible() && k < |s.events| && s.EventAt(k, maker) == Some(AnyMessage(msg, rpc))
    requires msg.counterparty == s.Account(!maker)
    ensures LawfulCall(s.world, s.Account(maker), s.Account(!maker), CallAt(s.NodeAt(k, maker), rpc))
  {
    hide NetRun, PossibleRun, Sound, Exclusive, Networks.Honest, Lawful, LawfulView;
    LawfulAt(s, k, maker);
    AlwaysInOrder(s, k, maker);
  }

  /** A message for a trade that is still there: its turn is what comes of it. */
  lemma TakesTurn(s: Story, k: nat, maker: bool, t: TradeState, msg: Message, rpc: Rpc)
    requires s.Possible() && k < |s.events| && s.EventAt(k, maker) == Some(AnyMessage(msg, rpc))
    requires Holds(s.NodeAt(k, maker), t) && Matches(t, msg)
    ensures var (me, c) := (s.Account(maker), CallAt(s.NodeAt(k, maker), rpc));
            && Consistent(s.world, me, t) && LawfulCall(s.world, me, t.counterparty, c)
            && var (r, m) := (Turn(s.world, me, t, msg, c), s.NodeAt(k + 1, maker));
            && (!r.outcome.Died? ==> Holds(m, r.trade))
            && (forall reply :: SentIn(s.NodeAt(k, maker), m, reply) <==> r.outcome == Sent(reply))
            && (r.broadcast.Some? ==> Broadcast(r.trade, r.broadcast.value) in m.log)
  {
    hide NetRun, PossibleRun, Sound, Exclusive, Networks.Honest, Lawful, LawfulView, Step, Holds, Consistent, Turn,
         SentIn;
    LawfulAt(s, k, maker);
    AlwaysInOrder(s, k, maker);
    NextNode(s, k, maker);
    TurnTaken(s.world, s.NodeAt(k, maker), t, msg, rpc);
  }

  lemma SparesAlike(n: Node, e: Event, t: TradeState, t1: TradeState)
    requires Extends(t, t1) && Spares(n, e, t)
    ensures Spares(n, e, t1)
  {
    hide FailsCheck;
  }

  /** What becomes of either trade stays while it is initiated and its turn has not come. */
  lemma StaysUndisturbed(s: Story, p: Plan, maker: bool, t: TradeState, i: nat, j: nat)
    requires s.Possible() && Happens(s, p) && Undisturbed(s, p) && t.state == Initiated
    requires Extends(if maker then MakersTrade(s, p) else TakersTrade(s, p), t)
    requires if maker then p.add < i <= j <= p.third && (j <= p.first || p.first < i) else p.take < i <= j <= p.second
    requires Holds(s.NodeAt(i, maker), t)
    ensures Holds(s.NodeAt(j, maker), t)
  {
    hide NetRun, PossibleRun, Holds, Spares, Extends, MakersTrade, TakersTrade;
    var t0 := if maker then MakersTrade(s, p) else TakersTrade(s, p);
    forall k | i <= k < j && s.EventAt(k, maker).Some?
      ensures Spares(s.NodeAt(k, maker), s.EventAt(k, maker).value, t)
    {
      SparesAlike(s.NodeAt(k, maker), s.EventAt(k, maker).value, t0, t);
    }
    Stays(s, maker, t, i, j);
  }

  lemma ExtendsItself(t: TradeState)
    ensures Extends(t, t)
  {
  }

  lemma ExtendsThrough(t: TradeState, t1: TradeState, t2: TradeState)
    requires Extends(t, t1) && Extends(t1, t2)
    ensures Extends(t, t2)
  {
  }

  /** A trade is left alone until its turn comes, in which it replies or broadcasts. */
  lemma TurnHappens(s: Story, p: Plan, maker: bool, t: TradeState, i: nat, k: nat, msg: Message, rpc: Rpc, c: Call)
    requires s.Possible() && Happens(s, p) && Undisturbed(s, p)
    requires Extends(if maker then MakersTrade(s, p) else TakersTrade(s, p), t)
    requires if maker then p.add < i <= k <= p.third && (k <= p.first || p.first < i) else p.take < i <= k <= p.second
    requires Holds(s.NodeAt(i, maker), t) && s.EventAt(k, maker) == Some(AnyMessage(msg, rpc))
    requires msg.counterparty == s.Account(!maker) && msg.identifier == GetIdentifier(t)
    requires c == CallAt(s.NodeAt(k, maker), rpc) && Consistent(s.world, s.Account(maker), t)
    requires LawfulCall(s.world, s.Account(maker), t.counterparty, c)
    requires var r := Turn(s.world, s.Account(maker), t, msg, c);
             !r.outcome.Died? && (r.outcome.Sent? || r.broadcast.Some?)
    ensures var (r, m) := (Turn(s.world, s.Account(maker), t, msg, c), s.NodeAt(k + 1, maker));
            && Extends(if maker then MakersTrade(s, p) else TakersTrade(s, p), r.trade) && Holds(m, r.trade)
            && GetIdentifier(r.trade) == GetIdentifier(t)
            && (r.outcome.Sent? ==>
                  r.outcome.msg.identifier == GetIdentifier(t) && SentIn(s.NodeAt(k, maker), m, r.outcome.msg))
            && (r.broadcast.Some? ==> Broadcast(r.trade, r.broadcast.value) in m.log)
  {
    hide NetRun, PossibleRun, Holds, Undisturbed, Consistent, LawfulCall, Turn, SentIn, GetIdentifier, Measure, Extends;
    var t0 := if maker then MakersTrade(s, p) else TakersTrade(s, p);
    TurnIsFor(s.world, s.Account(maker), t, msg, c);
    StaysUndisturbed(s, p, maker, t, i, k);
    assert t.counterparty == t0.counterparty by { ExtendsKeeps(t0, t); }
    TakesTurn(s, k, maker, t, msg, rpc);
    ExtendsThrough(t0, t, Turn(s.world, s.Account(maker), t, msg, c).trade);
    SameIdentifier(t, Turn(s.world, s.Account(maker), t, msg, c).trade);
  }

  lemma ExtendsKeeps(t: TradeState, t1: TradeState)
    requires Extends(t, t1)
    ensures t1.counterparty == t.counterparty
  {
  }

  /** The three turns happen at the nodes as in a conversation of the two. */
  lemma TurnsHappen(s: Story, p: Plan, u: TradeState, t: TradeState, c1: Call, c2: Call, c3: Call, tx: Tx)
    requires s.Possible() && Happens(s, p) && Undisturbed(s, p) && MessagesArrive(s, p)
    requires u == MakersTrade(s, p) && Extends(u, u)
    requires Extends(TakersTrade(s, p), t) && GetIdentifier(t) == GetIdentifier(u)
    requires Holds(s.Maker(p.add + 1), u) && Holds(s.Taker(p.take + 1), t)
    requires p.m1.identifier == GetIdentifier(u)
    requires c1 == CallAt(s.Maker(p.first), p.rpc1) && c2 == CallAt(s.Taker(p.second), p.rpc2)
    requires c3 == CallAt(s.Maker(p.third), p.rpc3)
    requires Consistent(s.world, s.Account(true), u) && Consistent(s.world, s.Account(false), t)
    requires LawfulCall(s.world, s.Account(true), u.counterparty, c1)
    requires LawfulCall(s.world, s.Account(false), t.counterparty, c2)
    requires LawfulCall(s.world, s.Account(true), u.counterparty, c3)
    requires TurnsEnd(s.world, s.Account(true), u, s.Account(false), t, p.m1, c1, c2, c3, tx)
    ensures Completed(s, p, tx)
  {
    hide NetRun, PossibleRun, Holds, Undisturbed, Consistent, LawfulCall, Turn, SentIn, GetIdentifier, Measure, Extends,
         Story.Possible, MakersTrade, TakersTrade;
    var (w, maker, taker) := (s.world, s.Account(true), s.Account(false));
    var r1 := Turn(w, maker, u, p.m1, c1);
    TurnHappens(s, p, true, u, p.add + 1, p.first, p.m1, p.rpc1, c1);
    assert p.m2 == Incoming(maker, r1.outcome.msg);
    var r2 := Turn(w, taker, t, p.m2, c2);
    TurnHappens(s, p, false, t, p.take + 1, p.second, p.m2, p.rpc2, c2);
    assert p.m3 == Incoming(taker, r2.outcome.msg);
    ExtendsKeeps(u, r1.trade);
    var r3 := Turn(w, maker, r1.trade, p.m3, c3);
    TurnHappens(s, p, true, r1.trade, p.first + 1, p.third, p.m3, p.rpc3, c3);
    assert PendingOn(r2.trade, tx) && PendingOn(r3.trade, tx);
  }

  lemma SameIdentifier(t: TradeState, t1: TradeState)
    requires Extends(t, t1)
    ensures GetIdentifier(t1) == GetIdentifier(t)
  {
  }

  lemma WorkingCalls(s: Story, p: Plan, nameOut: OutPoint)
    requires Happens(s, p) && CallsWork(s, p, nameOut)
    ensures var (c0, c1) := (CallAt(s.Taker(p.take), p.rpc0), CallAt(s.Maker(p.first), p.rpc1));
            var (c2, c3) := (CallAt(s.Taker(p.second), p.rpc2), CallAt(s.Maker(p.third), p.rpc3));
            var (maker, taker) := (s.Account(true), s.Account(false));
            var seller := if p.order.Type() == Ask then maker else taker;
            && Cooperative(s.world, taker, c0) && Cooperative(s.world, maker, c1) && Cooperative(s.world, taker, c2)
            && Cooperative(s.world, maker, c3)
            && Steady(seller, taker, nameOut, c0) && Steady(seller, maker, nameOut, c1)
            && Steady(seller, taker, nameOut, c2)
            && nameOut !in (if p.order.Type() == Ask then c1 else c0).locked
  {
    hide NetRun, Cooperative, Steady;
  }

  /**
   * Honest completion at two nodes, in either direction: if the six events of a
   * trade happen in any possible run, whatever else happens that does not disturb
   * it, both trades become pending on one transaction, which the maker broadcasts.
   */
  lemma HonestNodesComplete(s: Story, p: Plan, nameOut: OutPoint) returns (tx: Tx)
    requires s.Possible() && Happens(s, p) && MessagesArrive(s, p)
    requires CanTrade(s, p) && CallsWork(s, p, nameOut) && Undisturbed(s, p)
    ensures Completed(s, p, tx)
  {
    hide NetRun, PossibleRun, Holds, Undisturbed, CanTrade, CallsWork, Consistent, LawfulCall, TwoSides, TurnsEnd,
         Completion.TakeOrder, Cooperative, Steady, GetIdentifier, SentIn, Extends, GetOrderType, LockedCopy;
    var (w, maker, taker) := (s.world, s.Account(true), s.Account(false));
    var (t, u) := (TakersTrade(s, p), MakersTrade(s, p));
    var (c0, c1) := (CallAt(s.Taker(p.take), p.rpc0), CallAt(s.Maker(p.first), p.rpc1));
    var (c2, c3) := (CallAt(s.Taker(p.second), p.rpc2), CallAt(s.Maker(p.third), p.rpc3));
    var (m, t1) := Completion.TakeOrder(w, taker, t, c0);
    TakerStarts(s, p, nameOut);
    FirstMessage(w, taker, t, c0);
    StaysUndisturbed(s, p, false, t1, p.take + 1, p.lock);
    MakerStarts(s, p, t1);
    BothSides(s, p);
    CallIsLawful(s, p.first, true, p.m1, p.rpc1);
    CallIsLawful(s, p.second, false, p.m2, p.rpc2);
    CallIsLawful(s, p.third, true, p.m3, p.rpc3);
    WorkingCalls(s, p, nameOut);
    tx := TurnsFromStart(w, maker, u, taker, t, c0, c1, c2, c3, nameOut);
    SameIdentifier(t, t1);
    ExtendsItself(u);
    TurnsHappen(s, p, u, t1, c1, c2, c3, tx);
  }
}
