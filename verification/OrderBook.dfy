/**
 * The book of other people's orders: lazy expiry through a queue of update
 * events, and the view of the book by asset.
 */
module OrderBooks {
  import opened Amounts
  import opened Orders
  import opened Wrappers

  datatype AccountOrders = AccountOrders(orders: map<UInt64, Order>, lastUpdate: int)

  datatype UpdateEvent = UpdateEvent(account: string, time: int)

  type Book = map<string, AccountOrders>

  /** The book without the accounts last updated before a cutoff. */
  function Fresh(orders: Book, cutoff: int): Book {
    map a | a in orders && orders[a].lastUpdate >= cutoff :: orders[a]
  }

  /** What the queue owes the book: it is in time order and has an event for every account's last update. */
  ghost predicate Tracks(updates: seq<UpdateEvent>, orders: Book) {
    && (forall i, j :: 0 <= i < j < |updates| ==> updates[i].time <= updates[j].time)
    && (forall a :: a in orders ==> UpdateEvent(a, orders[a].lastUpdate) in updates)
  }

  /** A book on its way from another one to the fresh part of it. */
  ghost predicate Between(orders: Book, before: Book, cutoff: int) {
    && (forall a :: a in orders ==> a in before && orders[a] == before[a])
    && (forall a :: a in before && a !in orders ==> before[a].lastUpdate < cutoff)
  }

  /** One pop: the event that leaves is only owed for an account that leaves too. */
  lemma PopKeepsTrack(updates: seq<UpdateEvent>, orders: Book, cutoff: int)
    requires Tracks(updates, orders) && updates != [] && updates[0].time < cutoff
    ensures var a := updates[0].account;
            Tracks(updates[1..], if a in orders && orders[a].lastUpdate < cutoff then orders - {a} else orders)
  {
    assert updates == [updates[0]] + updates[1..];
  }

  lemma PopKeepsBetween(orders: Book, before: Book, a: string, cutoff: int)
    requires Between(orders, before, cutoff)
    ensures Between(if a in orders && orders[a].lastUpdate < cutoff then orders - {a} else orders, before, cutoff)
  {
  }

  lemma NothingDropped(before: Book, cutoff: int)
    ensures Between(before, before, cutoff)
  {
  }

  lemma DrainedIsFresh(updates: seq<UpdateEvent>, orders: Book, before: Book, cutoff: int)
    requires Tracks(updates, orders) && (updates != [] ==> updates[0].time >= cutoff)
    requires Between(orders, before, cutoff)
    ensures orders == Fresh(before, cutoff) && forall a :: a in orders ==> a in before && orders[a] == before[a]
  {
    forall a | a in orders ensures orders[a].lastUpdate >= cutoff {
      var i :| 0 <= i < |updates| && updates[i] == UpdateEvent(a, orders[a].lastUpdate);
    }
  }

  /** Messages the book accepts: anything else fails a CHECK. */
  predicate ValidUpdate(orders: map<UInt64, Order>) {
    forall id :: id in orders ==> orders[id].asset.Some? && orders[id].orderType.Some? && orders[id].priceSat.Some?
  }

  // ---------------------------------------------------------------------------
  // Whole histories of the simple specification: a map that ticks filter.

  datatype Event = Update(account: string, orders: map<UInt64, Order>, now: int) | Tick(now: int)

  function Apply(book: Book, timeout: int, e: Event): Book {
    match e
    case Update(a, orders, now) =>
      if orders == map[] then book - {a} else book[a := AccountOrders(orders, now)]
    case Tick(now) => Fresh(book, now - timeout)
  }

  function After(timeout: int, history: seq<Event>): Book {
    if history == [] then map[] else Apply(After(timeout, history[..|history| - 1]), timeout, history[|history| - 1])
  }

  /** Event k is the last update of an account and no later tick found it too old. */
  ghost predicate StillStands(timeout: int, history: seq<Event>, a: string, k: nat) {
    && k < |history| && history[k].Update? && history[k].account == a && history[k].orders != map[]
    && forall j :: k < j < |history| ==>
         match history[j]
         case Update(b, _, _) => b != a
         case Tick(now) => history[k].now >= now - timeout
  }

  /**
   * An account is listed after a history exactly when its last update was not
   * empty and was recent enough at every tick since, and then with that update.
   */
  lemma {:induction false} ListedIffStanding(timeout: int, history: seq<Event>, a: string)
    ensures a in After(timeout, history) <==> exists k: nat :: StillStands(timeout, history, a, k)
    ensures forall k: nat :: StillStands(timeout, history, a, k)
              ==> a in After(timeout, history)
                  && After(timeout, history)[a] == AccountOrders(history[k].orders, history[k].now)
  {
    if history != [] {
      var n := |history| - 1;
      var before := history[..n];
      ListedIffStanding(timeout, before, a);
      forall k: nat | k < n && StillStands(timeout, history, a, k)
        ensures StillStands(timeout, before, a, k)
      {
        assert forall j :: 0 <= j < n ==> before[j] == history[j];
      }
      if a in After(timeout, history) {
        if history[n].Update? && history[n].account == a {
          assert StillStands(timeout, history, a, n);
        } else {
          var k: nat :| StillStands(timeout, before, a, k);
          assert forall j :: 0 <= j < n ==> before[j] == history[j];
          assert StillStands(timeout, history, a, k);
        }
      }
    }
  }

  // ---------------------------------------------------------------------------
  // The view by asset.

  datatype AssetBook = AssetBook(asset: string, bids: seq<Order>, asks: seq<Order>)

  /** A stored order as it is listed: with its account and id, without what the list implies. */
  function Listed(account: string, id: UInt64, o: Order): Order {
    o.(account := Some(account), id := Some(id), asset := None, orderType := None)
  }

  /** The account and id of one stored order. */
  type Slot = (string, UInt64)

  ghost function Slots(orders: Book): set<Slot> {
    set a, id | a in orders && id in orders[a].orders :: (a, id)
  }

  /** Slot p holds an order of an asset and side that is listed as o: with its owner, price and unit bounds. */
  ghost predicate ListsAs(orders: Book, p: Slot, asset: string, side: OrderType, o: Order) {
    p.0 in orders && p.1 in orders[p.0].orders
    && orders[p.0].orders[p.1].asset == Some(asset) && orders[p.0].orders[p.1].orderType == Some(side)
    && var stored := orders[p.0].orders[p.1];
    && o.account == Some(p.0) && o.id == Some(p.1) && o.asset == None && o.orderType == None
    && o.priceSat == stored.priceSat && o.minUnits == stored.minUnits && o.maxUnits == stored.maxUnits
    && o.locked == stored.locked
  }

  ghost predicate Passes(filter: Option<string>, asset: string) {
    filter.None? || filter.value == asset
  }

  /** A list holds, once each, the orders of some slots that have an asset and side. */
  ghost predicate Collects(orders: Book, slots: set<Slot>, asset: string, side: OrderType, list: seq<Order>) {
    && NoDuplicates(list)
    && forall o :: o in list <==> exists p :: p in slots && ListsAs(orders, p, asset, side, o)
  }

  /** A table of asset books regroups the orders of some slots, in any order. */
  ghost predicate Regroups(orders: Book, slots: set<Slot>, filter: Option<string>, books: map<string, AssetBook>) {
    && (forall asset :: asset in books <==>
          Passes(filter, asset) && exists p, side, o :: p in slots && ListsAs(orders, p, asset, side, o))
    && (forall asset :: asset in books ==>
          && books[asset].asset == asset
          && Collects(orders, slots, asset, Ask, books[asset].asks)
          && Collects(orders, slots, asset, Bid, books[asset].bids))
  }

  /** The cheapest asks and the dearest bids come first. */
  ghost predicate Sorted(books: map<string, AssetBook>) {
    forall asset :: asset in books ==> CheapestFirst(books[asset].asks) && DearestFirst(books[asset].bids)
  }

  /** The view by asset: every order, once, in its place, sorted. */
  ghost predicate IsView(orders: Book, filter: Option<string>, books: map<string, AssetBook>) {
    Regroups(orders, Slots(orders), filter, books) && Sorted(books)
  }

  lemma AsksAreUnique(s: seq<Order>, t: seq<Order>)
    requires CheapestFirst(s) && CheapestFirst(t) && forall x :: x in s <==> x in t
    ensures s == t
  {
    hide CheapestFirst, Ascending;
    AscendingIsCheapestFirst(s);
    AscendingIsCheapestFirst(t);
    AscendingIsUnique(s, t);
  }

  lemma BidsAreUnique(s: seq<Order>, t: seq<Order>)
    requires DearestFirst(s) && DearestFirst(t) && forall x :: x in s <==> x in t
    ensures s == t
  {
    hide DearestFirst, Descending;
    AscendingIsCheapestFirst(s);
    AscendingIsCheapestFirst(t);
    DescendingIsUnique(s, t);
  }

  /** There is only one view, whatever the order in which the maps were visited. */
  lemma ViewIsUnique(orders: Book, filter: Option<string>, v: map<string, AssetBook>, w: map<string, AssetBook>)
    requires IsView(orders, filter, v) && IsView(orders, filter, w)
    ensures v == w
  {
    assert v.Keys == w.Keys by {
      forall asset ensures asset in v <==> asset in w {}
    }
    forall asset | asset in v
      ensures v[asset] == w[asset]
    {
      AsksAreUnique(v[asset].asks, w[asset].asks);
      BidsAreUnique(v[asset].bids, w[asset].bids);
    }
  }

  /** The filtered view is the entry of the full one. */
  lemma FilterSelects(orders: Book, asset: string, all: map<string, AssetBook>, one: map<string, AssetBook>)
    requires IsView(orders, None, all) && IsView(orders, Some(asset), one)
    ensures one == if asset in all then map[asset := all[asset]] else map[]
  {
    assert forall b :: b in one ==> b == asset;
    assert asset in one <==> asset in all;
    if asset in all {
      AsksAreUnique(one[asset].asks, all[asset].asks);
      BidsAreUnique(one[asset].bids, all[asset].bids);
      assert one.Keys == {asset};
    } else {
      assert one.Keys == {};
    }
  }

  lemma CollectedAreKeyed(orders: Book, slots: set<Slot>, asset: string, side: OrderType, list: seq<Order>)
    requires Collects(orders, slots, asset, side, list)
    ensures KeyedBy(list)
  {
    forall a, b | a in list && b in list && SameKey(a, b)
      ensures a == b
    {
      var p :| p in slots && ListsAs(orders, p, asset, side, a);
      var q :| q in slots && ListsAs(orders, q, asset, side, b);
      assert p == q;
    }
  }

  lemma CollectOne(orders: Book, slots: set<Slot>, p: Slot, asset: string, side: OrderType,
                   list: seq<Order>, o: Order)
    requires Collects(orders, slots, asset, side, list) && p !in slots && ListsAs(orders, p, asset, side, o)
    ensures Collects(orders, slots + {p}, asset, side, list + [o])
  {
    forall q | q in slots ensures !ListsAs(orders, q, asset, side, o) {}
    assert o !in list;
    forall x ensures x in list + [o] <==> exists q :: q in slots + {p} && ListsAs(orders, q, asset, side, x) {
      if q :| q in slots + {p} && ListsAs(orders, q, asset, side, x) {
        assert q in slots || (q == p && x == o);
      }
    }
  }

  lemma CollectOther(orders: Book, slots: set<Slot>, p: Slot, asset: string, side: OrderType, list: seq<Order>)
    requires Collects(orders, slots, asset, side, list) && forall o :: !ListsAs(orders, p, asset, side, o)
    ensures Collects(orders, slots + {p}, asset, side, list)
  {
    forall x ensures x in list <==> exists q :: q in slots + {p} && ListsAs(orders, q, asset, side, x) {
      if q :| q in slots + {p} && ListsAs(orders, q, asset, side, x) {
        assert q in slots;
      }
    }
  }

  /** A slot is listed under one asset, on one side, as one order. */
  lemma ListedOnce(orders: Book, p: Slot, asset: string, side: OrderType, o: Order)
    requires ListsAs(orders, p, asset, side, o)
    ensures forall b, s, x :: ListsAs(orders, p, b, s, x) ==> b == asset && s == side && x == o
  {
  }

  lemma CollectsNothing(orders: Book, slots: set<Slot>, asset: string, side: OrderType)
    requires forall p, o :: p in slots ==> !ListsAs(orders, p, asset, side, o)
    ensures Collects(orders, slots, asset, side, [])
  {
  }

  /** Files one listed order under its asset and side. */
  method AddOrderForAsset(books: map<string, AssetBook>, asset: string, side: OrderType, o: Order,
                          ghost orders: Book, ghost slots: set<Slot>, ghost p: Slot, ghost filter: Option<string>)
    returns (res: map<string, AssetBook>)
    requires Regroups(orders, slots, filter, books) && p !in slots
    requires Passes(filter, asset) && ListsAs(orders, p, asset, side, o)
    ensures Regroups(orders, slots + {p}, filter, res)
  {
    hide ListsAs, Collects;
    var forAsset := if asset in books then books[asset] else AssetBook(asset, [], []);
    ListedOnce(orders, p, asset, side, o);
    if asset !in books {
      CollectsNothing(orders, slots, asset, Ask);
      CollectsNothing(orders, slots, asset, Bid);
    }
    ghost var other := if side == Ask then Bid else Ask;
    CollectOther(orders, slots, p, asset, other, if side == Ask then forAsset.bids else forAsset.asks);
    CollectOne(orders, slots, p, asset, side, if side == Ask then forAsset.asks else forAsset.bids, o);
    if side == Ask {
      forAsset := forAsset.(asks := forAsset.asks + [o]);
    } else {
      forAsset := forAsset.(bids := forAsset.bids + [o]);
    }
    res := books[asset := forAsset];
    forall b | b in books && b != asset
      ensures Collects(orders, slots + {p}, b, Ask, res[b].asks) && Collects(orders, slots + {p}, b, Bid, res[b].bids)
    {
      CollectOther(orders, slots, p, b, Ask, books[b].asks);
      CollectOther(orders, slots, p, b, Bid, books[b].bids);
    }
    forall b
      ensures b in res <==> Passes(filter, b)
                            && exists q, s, x :: q in slots + {p} && ListsAs(orders, q, b, s, x)
    {
      if b == asset {
        assert p in slots + {p};
      } else if q, s, x :| q in slots + {p} && ListsAs(orders, q, b, s, x) {
        assert q in slots;
      }
    }
  }

  lemma SortedStaysCollected(orders: Book, slots: set<Slot>, asset: string, side: OrderType, list: seq<Order>)
    requires Collects(orders, slots, asset, side, list)
    ensures Collects(orders, slots, asset, side, SortByPrice(list)) && CheapestFirst(SortByPrice(list))
    ensures Collects(orders, slots, asset, side, SortByPriceReversed(list)) && DearestFirst(SortByPriceReversed(list))
  {
    CollectedAreKeyed(orders, slots, asset, side, list);
    SortSorts(list);
    AscendingHasNoDuplicates(SortByPrice(list));
    DescendingHasNoDuplicates(SortByPriceReversed(list));
  }

  /** Sorts every asset's lists. */
  method SortByPrices(books: map<string, AssetBook>, ghost orders: Book, ghost slots: set<Slot>,
                      ghost filter: Option<string>)
    returns (res: map<string, AssetBook>)
    requires Regroups(orders, slots, filter, books)
    ensures Regroups(orders, slots, filter, res) && Sorted(res)
  {
    hide Regroups, Collects, ListsAs, Sorted, SortByPrice, SortByPriceReversed;
    res := books;
    var todo := books.Keys;
    while todo != {}
      invariant todo <= res.Keys && res.Keys == books.Keys
      invariant forall b :: b in res && b in todo ==> res[b] == books[b]
      invariant forall b :: b in res && b !in todo ==>
                  && res[b] == AssetBook(b, SortByPriceReversed(books[b].bids), SortByPrice(books[b].asks))
    {
      var asset :| asset in todo;
      res := res[asset := AssetBook(asset, SortByPriceReversed(books[asset].bids), SortByPrice(books[asset].asks))];
      todo := todo - {asset};
    }
    AllSorted(orders, slots, filter, books, res);
  }

  lemma AllSorted(orders: Book, slots: set<Slot>, filter: Option<string>,
                  books: map<string, AssetBook>, res: map<string, AssetBook>)
    requires Regroups(orders, slots, filter, books)
    requires res.Keys == books.Keys
    requires forall b :: b in res ==>
               res[b] == AssetBook(b, SortByPriceReversed(books[b].bids), SortByPrice(books[b].asks))
    ensures Regroups(orders, slots, filter, res) && Sorted(res)
  {
    forall b | b in res
      ensures Collects(orders, slots, b, Ask, res[b].asks) && CheapestFirst(res[b].asks)
      ensures Collects(orders, slots, b, Bid, res[b].bids) && DearestFirst(res[b].bids)
    {
      SortedStaysCollected(orders, slots, b, Ask, books[b].asks);
      SortedStaysCollected(orders, slots, b, Bid, books[b].bids);
    }
    forall b ensures b in res <==> b in books {}
  }

  lemma AscendingHasNoDuplicates(s: seq<Order>)
    requires Ascending(s)
    ensures NoDuplicates(s)
  {
    forall i, j | 0 <= i < j < |s| ensures s[i] != s[j] { ByPriceTotal(s[i], s[j]); }
  }

  lemma DescendingHasNoDuplicates(s: seq<Order>)
    requires Descending(s)
    ensures NoDuplicates(s)
  {
    forall i, j | 0 <= i < j < |s| ensures s[i] != s[j] { ByPriceTotal(s[i], s[j]); }
  }

  class OrderBook {
    const timeout: int
    var orders: Book
    var updates: seq<UpdateEvent>
    /** The latest reading of the steady clock. */
    ghost var clock: int

    ghost predicate Valid()
      reads this
    {
      && Tracks(updates, orders)
      && (forall e :: e in updates ==> e.time <= clock)
      && (forall a :: a in orders ==> ValidUpdate(orders[a].orders))
    }

    constructor (to: int)
      ensures Valid() && orders == map[] && timeout == to
    {
      timeout := to;
      orders := map[];
      updates := [];
      clock := 0;
    }

    /** Pops old events off the queue, yet drops exactly the accounts that are too old. */
    method RunTimeout(now: int)
      requires Valid() && clock <= now
      modifies this
      ensures Valid() && clock == now
      ensures orders == Apply(old(orders), timeout, Tick(now))
      ensures updates == [] || updates[0].time >= now - timeout
      ensures forall e :: e in updates ==> e in old(updates)
    {
      hide ValidUpdate, Fresh, Between;
      clock := now;
      var timeoutBefore := now - timeout;
      NothingDropped(orders, timeoutBefore);
      while updates != [] && updates[0].time < timeoutBefore
        invariant clock == now && forall e :: e in updates ==> e in old(updates)
        invariant Tracks(updates, orders)
        invariant Between(orders, old(orders), timeoutBefore)
        decreases |updates|
      {
        var account := updates[0].account;
        PopKeepsTrack(updates, orders, timeoutBefore);
        PopKeepsBetween(orders, old(orders), account, timeoutBefore);
        updates := updates[1..];
        if account in orders {
          if orders[account].lastUpdate < timeoutBefore {
            orders := orders - {account};
          }
        }
      }
      DrainedIsFresh(updates, orders, old(orders), timeoutBefore);
    }

    /** Replaces the orders of an account, or removes it when there are none. */
    method UpdateOrders(account: string, upd: map<UInt64, Order>, now: int)
      requires Valid() && clock <= now && ValidUpdate(upd)
      modifies this
      ensures Valid() && clock == now
      ensures orders == Apply(old(orders), timeout, Update(account, upd, now))
      ensures updates == if upd == map[] then old(updates) else old(updates) + [UpdateEvent(account, now)]
    {
      clock := now;
      if upd == map[] {
        orders := orders - {account};
        return;
      }
      updates := updates + [UpdateEvent(account, now)];
      orders := orders[account := AccountOrders(upd, now)];
    }

    /** Regroups the stored orders by asset, visiting both levels of maps in no particular order. */
    method InternalGetByAsset(filter: Option<string>) returns (res: map<string, AssetBook>)
      requires Valid()
      ensures IsView(orders, filter, res)
    {
      hide Regroups, Collects, Sorted, Visited, PartVisited, Tracks;
      NoneVisited(orders, filter);
      res := map[];
      ghost var passed: set<Slot> := {};
      var accounts := orders.Keys;
      while accounts != {}
        invariant accounts <= orders.Keys
        invariant Visited(orders, filter, passed, accounts) && Regroups(orders, passed, filter, res)
      {
        var acc :| acc in accounts;
        var ids := orders[acc].orders.Keys;
        PartStarts(orders, filter, passed, accounts, acc);
        accounts := accounts - {acc};
        while ids != {}
          invariant ids <= orders[acc].orders.Keys
          invariant PartVisited(orders, filter, passed, accounts, acc, ids) && Regroups(orders, passed, filter, res)
        {
          var id :| id in ids;
          var o := orders[acc].orders[id];
          OneMoreVisited(orders, filter, passed, accounts, acc, ids, id);
          ids := ids - {id};
          if filter.None? || o.asset == filter {
            res := AddOrderForAsset(res, o.asset.value, o.orderType.value, Listed(acc, id, o),
                                    orders, passed, (acc, id), filter);
            passed := passed + {(acc, id)};
          }
        }
        PartEnds(orders, filter, passed, accounts, acc);
      }
      RegroupsAll(orders, passed, filter, res);
      res := SortByPrices(res, orders, Slots(orders), filter);
    }

    method GetForAsset(asset: string) returns (res: AssetBook)
      requires Valid()
      ensures forall all :: IsView(orders, None, all)
                ==> res == if asset in all then all[asset] else AssetBook(asset, [], [])
    {
      var allAssets := InternalGetByAsset(Some(asset));
      forall all | IsView(orders, None, all)
        ensures allAssets == if asset in all then map[asset := all[asset]] else map[]
      {
        FilterSelects(orders, asset, all, allAssets);
      }
      if allAssets == map[] {
        return AssetBook(asset, [], []);
      }
      assert forall b :: b in allAssets ==> b == asset;
      res := allAssets[asset];
    }
  }

  /** A slot with an order that a filter lets pass. */
  ghost predicate Wanted(orders: Book, filter: Option<string>, p: Slot) {
    p.0 in orders && p.1 in orders[p.0].orders
    && orders[p.0].orders[p.1].asset.Some? && Passes(filter, orders[p.0].orders[p.1].asset.value)
  }

  /** The wanted slots of all accounts but some. */
  ghost predicate Visited(orders: Book, filter: Option<string>, passed: set<Slot>, accounts: set<string>) {
    forall p :: p in passed <==> Wanted(orders, filter, p) && p.0 !in accounts
  }

  /** The same, but for one account on the way, of which some orders are left. */
  ghost predicate PartVisited(orders: Book, filter: Option<string>, passed: set<Slot>, accounts: set<string>,
                              acc: string, ids: set<UInt64>)
  {
    forall p :: p in passed <==> Wanted(orders, filter, p) && p.0 !in accounts && !(p.0 == acc && p.1 in ids)
  }

  lemma NoneVisited(orders: Book, filter: Option<string>)
    ensures Visited(orders, filter, {}, orders.Keys) && Regroups(orders, {}, filter, map[])
  {
  }

  lemma PartStarts(orders: Book, filter: Option<string>, passed: set<Slot>, accounts: set<string>, acc: string)
    requires Visited(orders, filter, passed, accounts) && acc in accounts && acc in orders
    ensures PartVisited(orders, filter, passed, accounts - {acc}, acc, orders[acc].orders.Keys)
  {
  }

  lemma OneMoreVisited(orders: Book, filter: Option<string>, passed: set<Slot>, accounts: set<string>, acc: string,
                       ids: set<UInt64>, id: UInt64)
    requires PartVisited(orders, filter, passed, accounts, acc, ids) && acc !in accounts && id in ids
    ensures (acc, id) !in passed
    ensures PartVisited(orders, filter, if Wanted(orders, filter, (acc, id)) then passed + {(acc, id)} else passed,
                        accounts, acc, ids - {id})
  {
  }

  lemma PartEnds(orders: Book, filter: Option<string>, passed: set<Slot>, accounts: set<string>, acc: string)
    requires PartVisited(orders, filter, passed, accounts, acc, {})
    ensures Visited(orders, filter, passed, accounts)
  {
  }

  lemma ListedAreVisited(orders: Book, passed: set<Slot>, filter: Option<string>)
    requires Visited(orders, filter, passed, {})
    ensures passed <= Slots(orders)
    ensures forall asset, side, o, p :: Passes(filter, asset) && ListsAs(orders, p, asset, side, o) ==>
              p in Slots(orders) && p in passed
  {
  }

  /** The slots a filter skips list nothing under the assets it lets pass. */
  lemma RegroupsAll(orders: Book, passed: set<Slot>, filter: Option<string>, books: map<string, AssetBook>)
    requires Regroups(orders, passed, filter, books) && Visited(orders, filter, passed, {})
    ensures Regroups(orders, Slots(orders), filter, books)
  {
    hide ListsAs, Collects;
    ListedAreVisited(orders, passed, filter);
    forall asset | asset in books ensures Passes(filter, asset) {}
    forall asset, side, list | Passes(filter, asset) && Collects(orders, passed, asset, side, list)
      ensures Collects(orders, Slots(orders), asset, side, list)
    {
      SameCollected(orders, passed, asset, side, list, filter);
    }
  }

  lemma SameCollected(orders: Book, passed: set<Slot>, asset: string, side: OrderType, list: seq<Order>,
                      filter: Option<string>)
    requires Collects(orders, passed, asset, side, list) && passed <= Slots(orders)
    requires forall p, o :: ListsAs(orders, p, asset, side, o) ==> p in passed
    ensures Collects(orders, Slots(orders), asset, side, list)
  {
    hide ListsAs;
  }
}
