/**
 * Archiving conserves trades: every trade ever added is active or archived,
 * never both and never twice, and is handled once, for the state it ended in.
 */
module NodeArchive {
  import Amounts
  import opened Chain
  import opened Nodes
  import opened NodeOrders
  import opened Orders
  import opened OwnOrders
  import opened Psbts
  import opened Sums
  import opened TradeRules
  import opened Wrappers

  function ActiveAs(serial: nat): Numbered -> nat {
    (x: Numbered) => if x.serial == serial then 1 else 0
  }

  function ArchivedAs(serial: nat): Archived -> nat {
    (x: Archived) => if x.serial == serial then 1 else 0
  }

  function WaitsAs(serial: nat): Job -> nat {
    (j: Job) => if j.Finalised? && j.item.serial == serial then 1 else 0
  }

  function HandledAs(serial: nat): Entry -> nat {
    (e: Entry) => if e.Handled? && e.serial == serial then 1 else 0
  }

  /** How often a trade is active, archived, awaits its handler and has been handled. */
  datatype Places = Places(active: nat, archived: nat, waiting: nat, handled: nat)

  ghost function PlacesOf(n: Node, serial: nat): Places {
    Places(Sum(ActiveAs(serial), n.trades), Sum(ArchivedAs(serial), n.archive),
           Sum(WaitsAs(serial), n.jobs), Sum(HandledAs(serial), n.log))
  }

  /** A trade that was added is in one place, and one that was archived awaits its handler or has been handled once. */
  predicate InOnePlace(nextSerial: nat, serial: nat, p: Places) {
    && p.active + p.archived == (if serial < nextSerial then 1 else 0)
    && p.archived == p.waiting + p.handled
  }

  /** Active trades keep the order in which they were added. */
  predicate Ascending(trades: seq<Numbered>) {
    forall i, j :: 0 <= i < j < |trades| ==> trades[i].serial < trades[j].serial
  }

  /** What is archived of a trade, field by field: what it is and from which side. */
  predicate Describes(info: PublicTrade, me: string, t: TradeState) {
    && info.state == t.state && info.startTime == t.startTime && info.counterparty == t.counterparty
    && info.units == t.units && info.priceSat == t.order.priceSat.GetOr(0) && info.asset == t.order.asset.GetOr("")
    && (info.role == Maker <==> t.order.account.GetOr("") == me)
    && (info.orderType == Ask <==> (info.role == Maker <==> t.order.orderType.GetOr(Ask) == Ask))
  }

  predicate IsRecorded(archive: seq<Archived>, serial: nat, me: string, t: TradeState) {
    t.state in {Success, Failed, Abandoned}
    && exists k :: 0 <= k < |archive| && archive[k].serial == serial && Describes(archive[k].info, me, t)
  }

  /** What awaits its handler or was handled was archived with its data, for the final state it was in. */
  predicate StatesMatch(n: Node) {
    && (forall i :: 0 <= i < |n.jobs| && n.jobs[i].Finalised? ==>
          IsRecorded(n.archive, n.jobs[i].item.serial, n.account, n.jobs[i].item.trade))
    && (forall k :: 0 <= k < |n.log| && n.log[k].Handled? ==>
          IsRecorded(n.archive, n.log[k].serial, n.account, n.log[k].trade))
  }

  ghost predicate Conserved(n: Node) {
    && (forall serial: nat :: InOnePlace(n.nextSerial, serial, PlacesOf(n, serial)))
    && Ascending(n.trades) && (forall i :: 0 <= i < |n.trades| ==> n.trades[i].serial < n.nextSerial)
    && StatesMatch(n)
  }

  // ---------------------------------------------------------------------------

  /** Nothing is handled between two logs. */
  predicate NoneHandled(log: seq<Entry>, later: seq<Entry>) {
    log <= later && forall k :: |log| <= k < |later| ==> !later[k].Handled?
  }

  lemma NoneHandledCount(log: seq<Entry>, later: seq<Entry>, serial: nat)
    requires NoneHandled(log, later)
    ensures Sum(HandledAs(serial), later) == Sum(HandledAs(serial), log)
  {
    var more := later[|log|..];
    assert later == log + more;
    SumConcat(HandledAs(serial), log, more);
    SumZero(HandledAs(serial), more);
  }

  /** The trades of a list under the same numbers, possibly changed. */
  predicate SameSerials(s: seq<Numbered>, t: seq<Numbered>) {
    |s| == |t| && forall i :: 0 <= i < |s| ==> s[i].serial == t[i].serial
  }

  predicate NoJobFinalised(jobs: seq<Job>) {
    forall i :: 0 <= i < |jobs| ==> !jobs[i].Finalised?
  }

  /** A step on jobs that neither archives nor handles anything, and adds at most one trade. */
  predicate Quiet(n: Node, m: Node, i: nat, k: nat, next: seq<Job>) {
    && i <= k <= |n.jobs| && m.jobs == n.jobs[..i] + next + n.jobs[k..]
    && NoJobFinalised(n.jobs[i..k]) && NoJobFinalised(next)
    && m.account == n.account && m.archive == n.archive && NoneHandled(n.log, m.log)
  }

  lemma QuietCounts(n: Node, m: Node, i: nat, k: nat, next: seq<Job>, serial: nat)
    requires Quiet(n, m, i, k, next)
    ensures PlacesOf(m, serial) == PlacesOf(n, serial).(active := PlacesOf(m, serial).active)
  {
    hide Sum;
    NoneHandledCount(n.log, m.log, serial);
    var f := WaitsAs(serial);
    SumConcat(f, n.jobs[..i] + next, n.jobs[k..]);
    SumConcat(f, n.jobs[..i], next);
    SumConcat(f, n.jobs[..i] + n.jobs[i..k], n.jobs[k..]);
    SumConcat(f, n.jobs[..i], n.jobs[i..k]);
    SumZero(f, next);
    SumZero(f, n.jobs[i..k]);
    assert n.jobs == n.jobs[..i] + n.jobs[i..k] + n.jobs[k..];
  }

  lemma QuietMatches(n: Node, m: Node, i: nat, k: nat, next: seq<Job>)
    requires Quiet(n, m, i, k, next) && StatesMatch(n)
    ensures StatesMatch(m)
  {
    hide IsRecorded;
    forall j | 0 <= j < |m.jobs| && m.jobs[j].Finalised?
      ensures IsRecorded(m.archive, m.jobs[j].item.serial, m.account, m.jobs[j].item.trade)
    {
      assert j < i || j >= i + |next|;
      assert m.jobs[j] == n.jobs[if j < i then j else j - |next| - i + k];
    }
  }

  lemma QuietKeeps(n: Node, m: Node, i: nat, k: nat, next: seq<Job>)
    requires Conserved(n) && Quiet(n, m, i, k, next) && SameSerials(n.trades, m.trades) && m.nextSerial == n.nextSerial
    ensures Conserved(m)
  {
    hide StatesMatch, Quiet;
    QuietMatches(n, m, i, k, next);
    forall serial: nat ensures InOnePlace(m.nextSerial, serial, PlacesOf(m, serial)) {
      QuietCounts(n, m, i, k, next, serial);
      SumSame(ActiveAs(serial), n.trades, m.trades);
      assert InOnePlace(n.nextSerial, serial, PlacesOf(n, serial));
    }
  }

  lemma QuietAdds(n: Node, m: Node, i: nat, k: nat, next: seq<Job>, t: TradeState)
    requires Conserved(n) && Quiet(n, m, i, k, next)
    requires m.trades == n.trades + [Numbered(n.nextSerial, t)] && m.nextSerial == n.nextSerial + 1
    ensures Conserved(m)
  {
    hide StatesMatch, Quiet, Sum;
    QuietMatches(n, m, i, k, next);
    forall serial: nat ensures InOnePlace(m.nextSerial, serial, PlacesOf(m, serial)) {
      QuietCounts(n, m, i, k, next, serial);
      SumAppend(ActiveAs(serial), n.trades, Numbered(n.nextSerial, t));
      assert InOnePlace(n.nextSerial, serial, PlacesOf(n, serial));
    }
  }

  // ---------------------------------------------------------------------------

  lemma ReplyLogHandlesNone(log: seq<Entry>, r: Result, rpc: Rpc)
    ensures NoneHandled(log, log + ReplyLog(r, rpc))
  {
  }

  lemma TakeConserves(w: World, n: Node, o: Order, units: Amounts.Int64, now: int, rpc: Rpc)
    requires Conserved(n)
    ensures Conserved(Take(w, n, o, units, now, rpc))
  {
    hide Take, Conserved, Quiet;
    var m := Take(w, n, o, units, now, rpc);
    TakeQuietly(w, n, o, units, now, rpc);
    if m.trades == n.trades {
      QuietKeeps(n, m, 0, 0, []);
    } else {
      QuietAdds(n, m, 0, 0, [], m.trades[|n.trades|].trade);
    }
  }

  lemma TakeQuietly(w: World, n: Node, o: Order, units: Amounts.Int64, now: int, rpc: Rpc)
    ensures var m := Take(w, n, o, units, now, rpc);
            && Quiet(n, m, 0, 0, [])
            && ((m.trades == n.trades && m.nextSerial == n.nextSerial)
                || (m.nextSerial == n.nextSerial + 1 && |m.trades| == |n.trades| + 1
                    && m.trades == n.trades + [Numbered(n.nextSerial, m.trades[|n.trades|].trade)]))
  {
    hide Reply, CheckOrder, ReplyLog;
    var t := NewTrade(o, Amounts.ToUInt64(units), o.account.GetOr(""), now);
    var r := Reply(w, n.account, t, n.wallet, rpc);
    var msg := (if r.outcome.Sent? then r.outcome.msg else BasicMessage(t))
                   .(takingOrder := Some(TakingOrder(o.id.GetOr(0), t.units)));
    ReplyLogHandlesNone(n.log, r.(outcome := Sent(msg)), rpc);
  }

  lemma DeliverConserves(w: World, n: Node, msg: Message, rpc: Rpc)
    requires Conserved(n)
    ensures Conserved(Deliver(w, n, msg, rpc))
  {
    hide Deliver, Conserved, Quiet;
    DeliverQuietly(w, n, msg, rpc);
    QuietKeeps(n, Deliver(w, n, msg, rpc), 0, 0, []);
  }

  lemma DeliverQuietly(w: World, n: Node, msg: Message, rpc: Rpc)
    ensures var m := Deliver(w, n, msg, rpc);
            Quiet(n, m, 0, 0, []) && SameSerials(n.trades, m.trades) && m.nextSerial == n.nextSerial
  {
    hide Reply, HandleMessage, ReplyLog;
    var i := FindMatch(n.trades, msg, 0);
    if i < |n.trades| {
      var r := Reply(w, n.account, HandleMessage(n.account, n.trades[i].trade, msg), n.wallet, rpc);
      ReplyLogHandlesNone(n.log + [Received(msg)], r, rpc);
    }
  }

  lemma {:induction false} SelectAscends(s: seq<Numbered>, final: bool)
    requires Ascending(s)
    ensures Ascending(Select(s, final)) && forall x :: x in Select(s, final) ==> x in s
  {
    if s != [] {
      var k := |s| - 1;
      SelectAscends(s[..k], final);
      var front := Select(s[..k], final);
      forall j | 0 <= j < |front| ensures front[j].serial < s[k].serial {
        assert front[j] in s[..k];
      }
    }
  }

  lemma {:induction false} ArchiveAllCounts(me: string, items: seq<Numbered>, serial: nat)
    ensures Sum(ArchivedAs(serial), ArchiveAll(me, items)) == Sum(ActiveAs(serial), items)
    ensures Sum(WaitsAs(serial), HandleAll(items)) == Sum(ActiveAs(serial), items)
  {
    if items != [] {
      var k := |items| - 1;
      ArchiveAllCounts(me, items[..k], serial);
      SumAppend(ArchivedAs(serial), ArchiveAll(me, items[..k]),
          Archived(items[k].serial, GetPublicInfo(me, items[k].trade)));
      SumAppend(WaitsAs(serial), HandleAll(items[..k]), Finalised(items[k]));
    }
  }

  lemma {:induction false} ArchiveAllHas(me: string, items: seq<Numbered>)
    ensures forall x :: x in items ==> Archived(x.serial, GetPublicInfo(me, x.trade)) in ArchiveAll(me, items)
  {
    if items != [] {
      var k := |items| - 1;
      ArchiveAllHas(me, items[..k]);
      assert items == items[..k] + [items[k]];
    }
  }

  lemma UpdateTickConserves(n: Node, now: int, checks: nat -> ChainCheck, limits: Limits)
    requires Conserved(n)
    ensures Conserved(UpdateAndArchive(n, now, checks, limits))
  {
    hide Updated, GetPublicInfo, Select, ArchiveAll, HandleAll, Sum, StatesMatch;
    var m := UpdateAndArchive(n, now, checks, limits);
    var updated := UpdateEach(n.trades, now, checks, limits);
    SelectKeepsOrder(n.trades, updated, n.nextSerial);
    forall serial: nat ensures InOnePlace(m.nextSerial, serial, PlacesOf(m, serial)) {
      assert InOnePlace(n.nextSerial, serial, PlacesOf(n, serial));
      ArchivedCounts(n, updated, m, serial);
    }
    ArchivedMatch(n, Select(updated, true), m) by { SelectFrom(updated, true); }
  }

  /** The trades that stay active keep their order. */
  lemma SelectKeepsOrder(trades: seq<Numbered>, updated: seq<Numbered>, nextSerial: nat)
    requires SameSerials(trades, updated) && Ascending(trades)
    requires forall i :: 0 <= i < |trades| ==> trades[i].serial < nextSerial
    ensures var rest := Select(updated, false);
            Ascending(rest) && forall i :: 0 <= i < |rest| ==> rest[i].serial < nextSerial
  {
    SelectAscends(updated, false);
    var rest := Select(updated, false);
    forall i | 0 <= i < |rest| ensures rest[i].serial < nextSerial {
      assert rest[i] in updated;
    }
  }

  lemma ArchivedCounts(n: Node, updated: seq<Numbered>, m: Node, serial: nat)
    requires SameSerials(n.trades, updated) && m.trades == Select(updated, false) && m.log == n.log
    requires var final := Select(updated, true);
             m.jobs == n.jobs + HandleAll(final) && m.archive == n.archive + ArchiveAll(n.account, final)
    ensures var (p, q) := (PlacesOf(n, serial), PlacesOf(m, serial));
            && p.active + p.archived == q.active + q.archived
            && q.waiting + p.archived == p.waiting + q.archived && q.handled == p.handled
  {
    hide Sum, Select, HandleAll, ArchiveAll;
    var final := Select(updated, true);
    SumSame(ActiveAs(serial), n.trades, updated);
    SelectSplits(ActiveAs(serial), updated);
    ArchiveAllCounts(n.account, final, serial);
    SumConcat(ArchivedAs(serial), n.archive, ArchiveAll(n.account, final));
    SumConcat(WaitsAs(serial), n.jobs, HandleAll(final));
  }

  lemma RecordedOn(archive: seq<Archived>, later: seq<Archived>, serial: nat, me: string, t: TradeState)
    requires IsRecorded(archive, serial, me, t) && archive <= later
    ensures IsRecorded(later, serial, me, t)
  {
    hide Describes;
    var k :| 0 <= k < |archive| && archive[k].serial == serial && Describes(archive[k].info, me, t);
    assert later[k] == archive[k];
  }

  lemma ArchivedIsRecorded(archive: seq<Archived>, x: Numbered, me: string)
    requires IsFinalised(x.trade) && Archived(x.serial, GetPublicInfo(me, x.trade)) in archive
    ensures IsRecorded(archive, x.serial, me, x.trade)
  {
    var k :| 0 <= k < |archive| && archive[k] == Archived(x.serial, GetPublicInfo(me, x.trade));
    assert Describes(archive[k].info, me, x.trade);
  }

  lemma ArchivedMatch(n: Node, final: seq<Numbered>, m: Node)
    requires StatesMatch(n) && m.jobs == n.jobs + HandleAll(final)
             && m.archive == n.archive + ArchiveAll(n.account, final)
    requires m.log == n.log && m.account == n.account && forall x :: x in final ==> IsFinalised(x.trade)
    ensures StatesMatch(m)
  {
    hide HandleAll, ArchiveAll, GetPublicInfo, IsFinalised, IsRecorded;
    HandleAllIs(final);
    ArchiveAllHas(n.account, final);
    forall serial, t | IsRecorded(n.archive, serial, n.account, t) ensures IsRecorded(m.archive, serial, n.account, t) {
      RecordedOn(n.archive, m.archive, serial, n.account, t);
    }
    forall x | x in final ensures IsRecorded(m.archive, x.serial, n.account, x.trade) {
      ArchivedIsRecorded(m.archive, x, n.account);
    }
    forall j | 0 <= j < |m.jobs| && m.jobs[j].Finalised?
      ensures IsRecorded(m.archive, m.jobs[j].item.serial, m.account, m.jobs[j].item.trade)
    {
      if j >= |n.jobs| {
        assert m.jobs[j] == Finalised(final[j - |n.jobs|]);
      }
    }
  }

  /** A trade is handed to its handler: it stops waiting. */
  lemma HandledConserves(n: Node, i: nat, next: seq<Job>, m: Node)
    requires Conserved(n) && i < |n.jobs| && n.jobs[i].Finalised? && NoJobFinalised(next)
    requires m.account == n.account && m.trades == n.trades && m.archive == n.archive && m.nextSerial == n.nextSerial
    requires m.jobs == n.jobs[..i] + next + n.jobs[i + 1..]
    requires m.log == n.log + [Handled(n.jobs[i].item.serial, n.jobs[i].item.trade)]
    ensures Conserved(m)
  {
    hide StatesMatch, Sum;
    HandledMatch(n, i, next, m);
    forall serial: nat ensures InOnePlace(m.nextSerial, serial, PlacesOf(m, serial)) {
      assert InOnePlace(n.nextSerial, serial, PlacesOf(n, serial));
      SumReplace(WaitsAs(serial), n.jobs, i, next);
      SumZero(WaitsAs(serial), next);
      SumAppend(HandledAs(serial), n.log, m.log[|n.log|]);
    }
  }

  lemma HandledMatch(n: Node, i: nat, next: seq<Job>, m: Node)
    requires StatesMatch(n) && i < |n.jobs| && n.jobs[i].Finalised? && NoJobFinalised(next)
    requires m.account == n.account && m.archive == n.archive && m.jobs == n.jobs[..i] + next + n.jobs[i + 1..]
    requires m.log == n.log + [Handled(n.jobs[i].item.serial, n.jobs[i].item.trade)]
    ensures StatesMatch(m)
  {
    hide IsRecorded;
    forall j | 0 <= j < |m.jobs| && m.jobs[j].Finalised?
      ensures IsRecorded(m.archive, m.jobs[j].item.serial, m.account, m.jobs[j].item.trade)
    {
      assert m.jobs[j] == n.jobs[if j < i then j else j - |next| + 1];
    }
  }

  lemma HandleConserves(n: Node, i: nat)
    requires Conserved(n) && i < |n.jobs| && n.jobs[i].Finalised?
    ensures Conserved(Handle(n, i))
  {
    hide Handle, GetRole, CanUnlock, Conserved;
    HandleIs(n, i);
    var m := Handle(n, i);
    if m.log != n.log {
      HandledConserves(n, i, NextJobs(n.account, n.jobs[i].item.trade), m);
    } else {
      QuietKeeps(n, m, 0, 0, []);
    }
  }

  lemma OrderTakenConserves(n: Node, i: nat, now: int)
    requires Conserved(n) && i < |n.jobs| && n.jobs[i].Taken? && n.jobs[i].msg.takingOrder.Some?
    ensures Conserved(OrderTaken(n, i, now))
  {
    hide Conserved, CheckOrder;
    var m := OrderTaken(n, i, now);
    var refused := Refused(n.jobs[i].order.id.GetOr(0));
    JobLists(n, i, refused);
    if m.trades == n.trades {
      QuietKeeps(n, m, i, i + 1, [refused]);
    } else {
      QuietAdds(n, m, i, i + 1, [], m.trades[|n.trades|].trade);
    }
  }

  lemma StartTakingConserves(n: Node, msg: Message)
    requires Conserved(n)
    ensures Conserved(StartTaking(n, msg))
  {
    hide Conserved;
    var m := StartTaking(n, msg);
    if m != n {
      QuietKeeps(n, m, |n.jobs|, |n.jobs|, [m.jobs[|n.jobs|]]);
    }
  }

  lemma ContinueConserves(n: Node, i: nat, now: int, valid: bool)
    requires Conserved(n) && i < |n.jobs|
    ensures Conserved(ContinueJob(n, i, now, valid))
  {
    hide Conserved, Handle, OrderTaken;
    var m := ContinueJob(n, i, now, valid);
    JobLists(n, i, n.jobs[i]);
    match n.jobs[i]
    case Taken(_, msg) => if msg.takingOrder.Some? { OrderTakenConserves(n, i, now); }
    case Finalised(_) => HandleConserves(n, i);
    case Refused(_) => if m.jobs == n.jobs { QuietKeeps(n, m, 0, 0, []); } else { QuietKeeps(n, m, i, i + 1, []); }
    case Releasing(_) => QuietKeeps(n, m, i, i + 1, []);
    case Recreating(_, _) => QuietKeeps(n, m, i, i + 1, []);
  }

  lemma StepConserves(w: World, n: Node, e: Event)
    requires Conserved(n)
    ensures Conserved(Step(w, n, e))
  {
    hide Conserved;
    if !n.crashed {
      match e
      case AddOrder(o) => QuietKeeps(n, Post(n, o), 0, 0, []);
      case CancelOrders(ids) => QuietKeeps(n, Drop(n, ids), 0, 0, []);
      case TakeOrder(o, units, now, rpc) => TakeConserves(w, n, o, units, now, rpc);
      case TakingMessage(msg) => StartTakingConserves(n, msg);
      case AnyMessage(msg, rpc) => DeliverConserves(w, n, msg, rpc);
      case UpdateTick(now, checks, limits) => UpdateTickConserves(n, now, checks, limits);
      case Continue(i, now, valid) => if i < |n.jobs| { ContinueConserves(n, i, now, valid); }
    }
  }

  /** In every run, every trade added is active or archived, once, and handled once at most, for its final state. */
  lemma {:induction false} TradesAreConserved(w: World, account: string, wallet: set<OutPoint>, events: seq<Event>)
    ensures Conserved(Run(w, NewNode(account, wallet), events))
  {
    if events != [] {
      var k := |events| - 1;
      TradesAreConserved(w, account, wallet, events[..k]);
      hide Conserved, Step;
      StepConserves(w, Run(w, NewNode(account, wallet), events[..k]), events[k]);
    }
  }

  /** The archive, the numbering of trades and the log only grow. */
  predicate Grows(n: Node, m: Node) {
    m.account == n.account && n.archive <= m.archive && n.nextSerial <= m.nextSerial && n.log <= m.log
  }

  lemma StepGrows(w: World, n: Node, e: Event)
    ensures Grows(n, Step(w, n, e)) && (!e.UpdateTick? ==> Step(w, n, e).archive == n.archive)
  {
    hide Take, Deliver, ContinueJob;
    if !n.crashed {
      match e
      case TakeOrder(o, units, now, rpc) => TakeQuietly(w, n, o, units, now, rpc);
      case AnyMessage(msg, rpc) => DeliverQuietly(w, n, msg, rpc);
      case Continue(i, now, valid) => if i < |n.jobs| { ContinueGrows(n, i, now, valid); }
      case UpdateTick(_, _, _) =>
      case AddOrder(_) =>
      case CancelOrders(_) =>
      case TakingMessage(_) =>
    }
  }

  lemma ContinueGrows(n: Node, i: nat, now: int, valid: bool)
    requires i < |n.jobs|
    ensures Grows(n, ContinueJob(n, i, now, valid)) && ContinueJob(n, i, now, valid).archive == n.archive
  {
    hide OrderTaken, UnlockFor, Handle, Recreate, ReleaseSet, Without;
    match n.jobs[i]
    case Taken(_, msg) => if msg.takingOrder.Some? { OrderTakenGrows(n, i, now); }
    case Refused(id) => UnlockGrows(n, i, id, []);
    case Finalised(_) => HandleGrows(n, i);
    case Releasing(_) =>
    case Recreating(_, _) => RecreateGrows(n, i, valid);
  }

  lemma OrderTakenGrows(n: Node, i: nat, now: int)
    requires i < |n.jobs| && n.jobs[i].Taken? && n.jobs[i].msg.takingOrder.Some?
    ensures Grows(n, OrderTaken(n, i, now)) && OrderTaken(n, i, now).archive == n.archive
  {
    hide CheckOrder, Without;
  }

  lemma UnlockGrows(n: Node, i: nat, id: Amounts.UInt64, next: seq<Job>)
    requires i < |n.jobs|
    ensures Grows(n, UnlockFor(n, i, id, next)) && UnlockFor(n, i, id, next).archive == n.archive
  {
    hide CanUnlock, Unlocked;
  }

  lemma RecreateGrows(n: Node, i: nat, valid: bool)
    requires i < |n.jobs| && n.jobs[i].Recreating?
    ensures Grows(n, Recreate(n, i, valid)) && Recreate(n, i, valid).archive == n.archive
  {
    hide Without;
  }

  lemma HandleGrows(n: Node, i: nat)
    requires i < |n.jobs| && n.jobs[i].Finalised?
    ensures Grows(n, Handle(n, i)) && Handle(n, i).archive == n.archive
  {
    hide Handle, GetRole, CanUnlock, NextJobs;
    HandleIs(n, i);
  }

  lemma {:induction false} RunsGrow(w: World, n: Node, events: seq<Event>, k: nat)
    requires k <= |events|
    ensures Grows(Run(w, n, events[..k]), Run(w, n, events))
  {
    if k == |events| {
      assert events[..k] == events;
    } else {
      var l := |events| - 1;
      assert events[..l][..k] == events[..k];
      RunsGrow(w, n, events[..l], k);
      StepGrows(w, Run(w, n, events[..l]), events[l]);
    }
  }

  /** Where a trade is: active under its number at one index, or archived at one. */
  lemma TradeIsSomewhere(n: Node, serial: nat)
    requires Conserved(n) && serial < n.nextSerial
    ensures (exists i :: 0 <= i < |n.trades| && n.trades[i].serial == serial)
            <==> !(exists k :: 0 <= k < |n.archive| && n.archive[k].serial == serial)
  {
    hide Sum;
    var p := PlacesOf(n, serial);
    assert InOnePlace(n.nextSerial, serial, p);
    if p.active > 0 {
      SumHas(ActiveAs(serial), n.trades);
    }
    if p.archived > 0 {
      SumHas(ArchivedAs(serial), n.archive);
    }
    if i :| 0 <= i < |n.trades| && n.trades[i].serial == serial {
      SumIncludes(ActiveAs(serial), n.trades, i);
    }
    if k :| 0 <= k < |n.archive| && n.archive[k].serial == serial {
      SumIncludes(ArchivedAs(serial), n.archive, k);
    }
  }
}
