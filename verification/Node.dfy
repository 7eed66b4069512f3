/**
 * A whole node as it runs: own orders, active trades, archive, wallet locks and
 * the threads that are between two critical sections. Every critical section is
 * one step, and steps interleave freely.
 */
module Nodes {
  import opened Amounts
  import opened Chain
  import opened Checker
  import opened OwnOrders
  import opened Orders
  import opened Psbts
  import opened TradeRules
  import opened Wrappers

  /** An active trade, numbered in the order in which trades were added. */
  datatype Numbered = Numbered(serial: nat, trade: TradeState)

  /** The public data that is kept of a finished trade. */
  datatype PublicTrade = PublicTrade(
    state: State,
    startTime: int,
    counterparty: string,
    orderType: OrderType,
    asset: string,
    units: UInt64,
    priceSat: UInt64,
    role: Role)

  function GetPublicInfo(me: string, t: TradeState): PublicTrade {
    PublicTrade(t.state, t.startTime, t.counterparty, GetOrderType(me, t), t.order.asset.GetOr(""), t.units,
                t.order.priceSat.GetOr(0), GetRole(me, t))
  }

  datatype Archived = Archived(serial: nat, info: PublicTrade)

  /** Work of a thread that has left one critical section and not entered the next. */
  datatype Job =
    | Taken(order: Order, msg: Message)            // locked the order, is about to add the trade
    | Refused(id: UInt64)                          // is about to unlock the order again
    | Finalised(item: Numbered)                    // archived, is about to be handled
    | Releasing(trade: TradeState)                 // failed, is about to unlock coins
    | Recreating(order: Order, from: UInt64)       // succeeded, is about to add the rest of the order

  /** What the node has done, for the properties that speak of the past. */
  datatype Entry =
    | Posted(id: UInt64, order: Order)
    | Received(msg: Message)
    | Verified(trade: TradeState, nameIn: OutPoint, view: BuyerView)
    | Replied(trade: TradeState, msg: Message)
    | Broadcast(trade: TradeState, tx: Tx)
    | Handled(serial: nat, trade: TradeState)

  datatype Node = Node(
    account: string,
    orders: OrderMap,
    nextId: nat,
    trades: seq<Numbered>,
    archive: seq<Archived>,
    wallet: set<OutPoint>,
    jobs: seq<Job>,
    crashed: bool,
    // History, which no step depends on.
    nextSerial: nat,
    log: seq<Entry>,
    lost: set<UInt64>,              // orders cancelled or dropped while locked
    rest: map<UInt64, UInt64>,      // order to the reduced order that took its place
    sold: map<UInt64, UInt64>,      // order to the units of its successful trade
    limit: map<UInt64, UInt64>)     // order to its maximum units

  function NewNode(account: string, wallet: set<OutPoint>): Node {
    Node(account, map[], 0, [], [], wallet, [], false, 0, [], {}, map[], map[], map[])
  }

  function Without<T>(s: seq<T>, i: nat): seq<T>
    requires i < |s|
  {
    s[..i] + s[i + 1..]
  }

  // ---------------------------------------------------------------------------
  // Own orders.

  /** Stores an order under a fresh identifier. */
  function Post(n: Node, o: Order): Node {
    if n.nextId >= TWO_64 then n
    else n.(orders := n.orders[n.nextId := Stored(o)], nextId := n.nextId + 1,
        log := n.log + [Posted(n.nextId, Stored(o))],
            limit := n.limit[n.nextId := o.maxUnits])
  }

  function Drop(n: Node, ids: set<UInt64>): Node {
    n.(orders := n.orders - ids, lost := n.lost + set id | id in ids && CanUnlock(n.orders, id))
  }

  // ---------------------------------------------------------------------------
  // Taking orders.

  function CheckOrder(o: Order, units: Int64): bool {
    UnitsAccepted(units, o.minUnits, o.maxUnits) && o.Complete()
  }

  /** A search for a reply, with what it logs. */
  ghost function Reply(w: World, me: string, t: TradeState, wallet: set<OutPoint>, rpc: Rpc): Result {
    if UsableSellerData(me, t) then HasReply(w, me, t, wallet, rpc) else Ends(t, wallet, Silent)
  }

  function ReplyLog(r: Result, rpc: Rpc): seq<Entry> {
    (if r.verified.Some? && rpc.buyerView.Some? then [Verified(r.trade, r.verified.value, rpc.buyerView.value)] else [])
    + (if r.outcome.Sent? then [Replied(r.trade, r.outcome.msg)] else [])
    + (if r.broadcast.Some? then [Broadcast(r.trade, r.broadcast.value)] else [])
  }

  /** The taker starts a trade: one critical section with the search for a first message. */
  ghost function Take(w: World, n: Node, o: Order, units: Int64, now: int, rpc: Rpc): Node {
    if !CheckOrder(o, units) || o.account.GetOr("") == n.account then n
    else
      var t := NewTrade(o, ToUInt64(units), o.account.GetOr(""), now);
      var r := Reply(w, n.account, t, n.wallet, rpc);
      if r.outcome.Died? then n.(crashed := true)
      else if r.outcome.Threw? then n.(wallet := r.locked)
      else
        var msg := (if r.outcome.Sent? then r.outcome.msg else BasicMessage(t))
                   .(takingOrder := Some(TakingOrder(o.id.GetOr(0), t.units)));
        n.(trades := n.trades + [Numbered(n.nextSerial, r.trade)], nextSerial := n.nextSerial + 1, wallet := r.locked,
           log := n.log + ReplyLog(r.(outcome := Sent(msg)), rpc))
  }

  /** The first section of processing a message that takes an order of ours. */
  function StartTaking(n: Node, msg: Message): Node {
    if msg.takingOrder.None? || !CanLock(n.orders, msg.takingOrder.value.id) then n
    else
      var id := msg.takingOrder.value.id;
      n.(orders := Locked(n.orders, id), jobs := n.jobs + [Taken(Copy(n.account, id, n.orders[id]), msg)])
  }

  /** The second section: the trade is added, or the order is to be unlocked. */
  function OrderTaken(n: Node, i: nat, now: int): Node
    requires i < |n.jobs| && n.jobs[i].Taken? && n.jobs[i].msg.takingOrder.Some?
  {
    var Taken(o, msg) := n.jobs[i];
    var units := ToInt64(msg.takingOrder.value.units);
    if !CheckOrder(o, units) || msg.counterparty == n.account then
      n.(jobs := n.jobs[i := Refused(o.id.GetOr(0))])
    else
      n.(trades := n.trades + [Numbered(n.nextSerial, NewTrade(o, ToUInt64(units), msg.counterparty, now))],
         nextSerial := n.nextSerial + 1, jobs := Without(n.jobs, i))
  }

  /** Unlocking an order CHECKs that it is there and locked. */
  function UnlockFor(n: Node, i: nat, id: UInt64, next: seq<Job>): Node
    requires i < |n.jobs|
  {
    if !CanUnlock(n.orders, id) then n.(crashed := true)
    else n.(orders := Unlocked(n.orders, id), jobs := n.jobs[..i] + next + n.jobs[i + 1..])
  }

  // ---------------------------------------------------------------------------
  // Messages.

  /** The first active trade that a message is meant for. */
  function FindMatch(trades: seq<Numbered>, msg: Message, from: nat): (i: nat)
    requires from <= |trades|
    ensures from <= i <= |trades|
    ensures i < |trades| ==> Matches(trades[i].trade, msg)
    ensures forall j :: from <= j < i ==> !Matches(trades[j].trade, msg)
    decreases |trades| - from
  {
    if from == |trades| || Matches(trades[from].trade, msg) then from else FindMatch(trades, msg, from + 1)
  }

  ghost function Deliver(w: World, n: Node, msg: Message, rpc: Rpc): Node {
    var i := FindMatch(n.trades, msg, 0);
    var n1 := n.(log := n.log + [Received(msg)]);
    if i == |n.trades| then n1
    else
      var t := HandleMessage(n.account, n.trades[i].trade, msg);
      var r := Reply(w, n.account, t, n.wallet, rpc);
      n1.(trades := n.trades[i := n.trades[i].(trade := r.trade)], wallet := r.locked,
          crashed := r.outcome.Died?, log := n1.log + ReplyLog(r, rpc))
  }

  // ---------------------------------------------------------------------------
  // Updates and what follows them.

  function Updated(t: TradeState, now: int, c: ChainCheck, limits: Limits): TradeState {
    if t.state == Pending && t.ourPsbt.None? then t else Update(t, now, c, limits)
  }

  function UpdateEach(trades: seq<Numbered>, now: int, checks: nat -> ChainCheck, limits: Limits): (r: seq<Numbered>)
    ensures |r| == |trades|
    ensures forall i :: 0 <= i < |r| ==> r[i] == trades[i].(trade := Updated(trades[i].trade, now, checks(i), limits))
  {
    if trades == [] then []
    else
      var k := |trades| - 1;
      UpdateEach(trades[..k], now, checks, limits)
      + [trades[k].(trade := Updated(trades[k].trade, now, checks(k), limits))]
  }

  /** The trades of a list that are final, or that are not, in order. */
  function Select(trades: seq<Numbered>, final: bool): seq<Numbered> {
    if trades == [] then []
    else
      var k := |trades| - 1;
      Select(trades[..k], final) + if IsFinalised(trades[k].trade) == final then [trades[k]] else []
  }

  function ArchiveAll(me: string, items: seq<Numbered>): seq<Archived> {
    if items == [] then []
    else
      var k := |items| - 1;
      ArchiveAll(me, items[..k]) + [Archived(items[k].serial, GetPublicInfo(me, items[k].trade))]
  }

  function HandleAll(items: seq<Numbered>): seq<Job> {
    if items == [] then [] else HandleAll(items[..|items| - 1]) + [Finalised(items[|items| - 1])]
  }

  /** The periodic update under the lock: final trades leave the list for the archive and await their handlers. */
  function UpdateAndArchive(n: Node, now: int, checks: nat -> ChainCheck, limits: Limits): Node {
    var updated := UpdateEach(n.trades, now, checks, limits);
    var final := Select(updated, true);
    n.(trades := Select(updated, false), archive := n.archive + ArchiveAll(n.account, final),
        jobs := n.jobs + HandleAll(final))
  }

  /** The reduced order after a success, if there is any left that somebody may take. */
  function Rest(t: TradeState): Option<Order> {
    var left := Remaining(t.order.maxUnits, t.units);
    if left > 0 && left >= t.order.minUnits then Some(t.order.(id := None, maxUnits := left)) else None
  }

  /** The first part of handling a finished trade, by its final state. */
  function Handle(n: Node, i: nat): Node
    requires i < |n.jobs| && n.jobs[i].Finalised?
  {
    var Numbered(serial, t) := n.jobs[i].item;
    var n1 := n.(log := n.log + [Handled(serial, t)]);
    var id := t.order.id.GetOr(0);
    if t.state == Success then
      if GetRole(n.account, t) == Taker then n1.(jobs := Without(n.jobs, i))
      else
        n1.(orders := n.orders - {id}, sold := n.sold[id := t.units],
            jobs := if Rest(t).Some? then n.jobs[i := Recreating(Rest(t).value, id)] else Without(n.jobs, i))
    else if GetRole(n.account, t) == Taker then n1.(jobs := n.jobs[i := Releasing(t)])
    else if CanUnlock(n.orders, id) then UnlockFor(n1, i, id, [Releasing(t)])
    else n.(crashed := true)
  }

  /** The coins that handling a failed trade tries to unlock. */
  function ReleaseSet(me: string, t: TradeState): set<OutPoint> {
    (if t.sellerData.Some? && t.sellerData.value.nameOutput.Some? then {t.sellerData.value.nameOutput.value} else {})
    + (if GetOrderType(me, t) == Bid && t.ourPsbt.Some? then Inputs(t.ourPsbt.value.tx) else {})
  }

  function Recreate(n: Node, i: nat, valid: bool): Node
    requires i < |n.jobs| && n.jobs[i].Recreating?
  {
    var Recreating(o, from) := n.jobs[i];
    var n1 := n.(jobs := Without(n.jobs, i));
    if !valid || n.nextId >= TWO_64 then n1 else Post(n1, o).(rest := n.rest[from := n.nextId])
  }

  // ---------------------------------------------------------------------------

  /** The steps of a node: calls of the user, messages, ticks, and jobs that go on. */
  datatype Event =
    | AddOrder(order: Order)
    | CancelOrders(ids: set<UInt64>)
    | TakeOrder(order: Order, units: Int64, now: int, rpc: Rpc)
    | TakingMessage(msg: Message)
    | AnyMessage(msg: Message, rpc: Rpc)
    | UpdateTick(now: int, checks: nat -> ChainCheck, limits: Limits)
    | Continue(job: nat, now: int, valid: bool)

  function ContinueJob(n: Node, i: nat, now: int, valid: bool): Node
    requires i < |n.jobs|
  {
    match n.jobs[i]
    case Taken(_, msg) => if msg.takingOrder.Some? then OrderTaken(n, i, now) else n
    case Refused(id) => UnlockFor(n, i, id, [])
    case Finalised(_) => Handle(n, i)
    case Releasing(t) => n.(wallet := n.wallet - ReleaseSet(n.account, t), jobs := Without(n.jobs, i))
    case Recreating(_, _) => Recreate(n, i, valid)
  }

  ghost function Step(w: World, n: Node, e: Event): Node {
    if n.crashed then n
    else match e
      case AddOrder(o) => Post(n, o)
      case CancelOrders(ids) => Drop(n, ids)
      case TakeOrder(o, units, now, rpc) => Take(w, n, o, units, now, rpc)
      case TakingMessage(msg) => StartTaking(n, msg)
      case AnyMessage(msg, rpc) => Deliver(w, n, msg, rpc)
      case UpdateTick(now, checks, limits) => UpdateAndArchive(n, now, checks, limits)
      case Continue(i, now, valid) => if i < |n.jobs| then ContinueJob(n, i, now, valid) else n
  }

  ghost function Run(w: World, n: Node, events: seq<Event>): Node {
    if events == [] then n else Step(w, Run(w, n, events[..|events| - 1]), events[|events| - 1])
  }
}
