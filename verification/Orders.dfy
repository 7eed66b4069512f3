/** Orders, and the order by price in which a book lists them. */
module Orders {
  import opened Amounts
  import opened Wrappers

  datatype OrderType = Ask | Bid

  /** An order message. Missing unit bounds and a missing lock flag read as zero and false. */
  datatype Order = Order(
    account: Option<string>,
    id: Option<UInt64>,
    asset: Option<string>,
    minUnits: UInt64,
    maxUnits: UInt64,
    orderType: Option<OrderType>,
    priceSat: Option<UInt64>,
    locked: bool)
  {
    predicate Complete() {
      account.Some? && id.Some? && asset.Some? && orderType.Some? && priceSat.Some?
    }

    function Type(): OrderType {
      orderType.GetOr(Ask)
    }
  }

  function StringLess(a: string, b: string): bool {
    b != [] && (a == [] || a[0] < b[0] || (a[0] == b[0] && StringLess(a[1..], b[1..])))
  }

  lemma {:induction false} StringLessTotal(a: string, b: string)
    ensures a == b || StringLess(a, b) || StringLess(b, a)
    ensures !(StringLess(a, b) && StringLess(b, a))
    ensures !StringLess(a, a)
  {
    if a != [] {
      StringLessTotal(a[1..], if b != [] then b[1..] else a[1..]);
      if b != [] && a[0] == b[0] && a[1..] == b[1..] {
        assert a == [a[0]] + a[1..] == b;
      }
    }
  }

  lemma {:induction false} StringLessTransitive(a: string, b: string, c: string)
    requires StringLess(a, b) && StringLess(b, c)
    ensures StringLess(a, c)
  {
    if a != [] && a[0] == b[0] == c[0] {
      StringLessTransitive(a[1..], b[1..], c[1..]);
    }
  }

  /** A string is before another one: a proper prefix of it, or smaller at the first place where they differ. */
  ghost predicate IsBefore(a: string, b: string) {
    exists k: nat :: IsBeforeAt(a, b, k)
  }

  predicate IsBeforeAt(a: string, b: string, k: nat) {
    && k <= |a| && k < |b| && a[..k] == b[..k] && (k < |a| ==> a[k] < b[k])
  }

  lemma SameFirst(a: string, b: string, k: nat)
    requires IsBeforeAt(a, b, k)
    ensures k > 0 ==> a != [] && b != [] && a[0] == b[0]
  {
    if k > 0 {
      assert a[..k][0] == a[0] && b[..k][0] == b[0];
    }
  }

  lemma {:induction false} StringLessIsExact(a: string, b: string)
    ensures StringLess(a, b) <==> IsBefore(a, b)
  {
    if b == [] || a == [] || a[0] != b[0] {
      assert a == [] && b != [] ==> IsBeforeAt(a, b, 0);
      assert a != [] && b != [] && a[0] < b[0] ==> IsBeforeAt(a, b, 0);
      forall k: nat | IsBeforeAt(a, b, k) ensures k == 0 {
        SameFirst(a, b, k);
      }
    } else {
      var (x, y) := (a[1..], b[1..]);
      assert a == [a[0]] + x && b == [b[0]] + y;
      StringLessIsExact(x, y);
      if k: nat :| IsBeforeAt(x, y, k) {
        assert a[..k + 1] == [a[0]] + x[..k] && b[..k + 1] == [b[0]] + y[..k];
        assert IsBeforeAt(a, b, k + 1);
      }
      if k: nat :| IsBeforeAt(a, b, k) {
        assert k > 0;
        assert x[..k - 1] == a[..k][1..] && y[..k - 1] == b[..k][1..];
        assert IsBeforeAt(x, y, k - 1);
      }
    }
  }

  /** The comparison of two listed orders: by price, then account, then identifier. */
  predicate ByPriceAsc(a: Order, b: Order) {
    var (pa, pb) := (a.priceSat.GetOr(0), b.priceSat.GetOr(0));
    var (na, nb) := (a.account.GetOr(""), b.account.GetOr(""));
    if pa != pb then pa < pb
    else if na != nb then StringLess(na, nb)
    else a.id.GetOr(0) < b.id.GetOr(0)
  }

  /** Orders with the same position in the comparison. */
  predicate SameKey(a: Order, b: Order) {
    a.priceSat.GetOr(0) == b.priceSat.GetOr(0) && a.account.GetOr("") == b.account.GetOr("")
    && a.id.GetOr(0) == b.id.GetOr(0)
  }

  lemma ByPriceTotal(a: Order, b: Order)
    ensures SameKey(a, b) || ByPriceAsc(a, b) || ByPriceAsc(b, a)
    ensures !(ByPriceAsc(a, b) && ByPriceAsc(b, a))
    ensures !ByPriceAsc(a, a)
  {
    StringLessTotal(a.account.GetOr(""), b.account.GetOr(""));
  }

  lemma ByPriceTransitive(a: Order, b: Order, c: Order)
    requires ByPriceAsc(a, b) && ByPriceAsc(b, c)
    ensures ByPriceAsc(a, c)
  {
    var (x, y, z) := (a.account.GetOr(""), b.account.GetOr(""), c.account.GetOr(""));
    StringLessTotal(x, y);
    StringLessTotal(y, z);
    StringLessTotal(x, z);
    if StringLess(x, y) && StringLess(y, z) {
      StringLessTransitive(x, y, z);
    }
  }

  ghost predicate Ascending(s: seq<Order>) {
    forall i, j :: 0 <= i < j < |s| ==> ByPriceAsc(s[i], s[j])
  }

  ghost predicate Descending(s: seq<Order>) {
    forall i, j :: 0 <= i < j < |s| ==> ByPriceAsc(s[j], s[i])
  }

  /** At one price, orders come by account and then by identifier. */
  ghost predicate TieBroken(a: Order, b: Order) {
    || IsBefore(a.account.GetOr(""), b.account.GetOr(""))
    || (a.account.GetOr("") == b.account.GetOr("") && a.id.GetOr(0) < b.id.GetOr(0))
  }

  /** The cheapest come first, ties by account and identifier. */
  ghost predicate CheapestFirst(s: seq<Order>) {
    forall i, j :: 0 <= i < j < |s| ==>
      && s[i].priceSat.GetOr(0) <= s[j].priceSat.GetOr(0)
      && (s[i].priceSat.GetOr(0) == s[j].priceSat.GetOr(0) ==> TieBroken(s[i], s[j]))
  }

  /** The dearest come first, ties in the opposite order. */
  ghost predicate DearestFirst(s: seq<Order>) {
    forall i, j :: 0 <= i < j < |s| ==>
      && s[i].priceSat.GetOr(0) >= s[j].priceSat.GetOr(0)
      && (s[i].priceSat.GetOr(0) == s[j].priceSat.GetOr(0) ==> TieBroken(s[j], s[i]))
  }

  lemma AscendingIsCheapestFirst(s: seq<Order>)
    ensures Ascending(s) <==> CheapestFirst(s)
    ensures Descending(s) <==> DearestFirst(s)
  {
    hide StringLess, IsBefore;
    forall a: Order, b: Order
      ensures ByPriceAsc(a, b) <==>
                a.priceSat.GetOr(0) < b.priceSat.GetOr(0)
                || (a.priceSat.GetOr(0) == b.priceSat.GetOr(0) && TieBroken(a, b))
    {
      StringLessIsExact(a.account.GetOr(""), b.account.GetOr(""));
      StringLessTotal(a.account.GetOr(""), b.account.GetOr(""));
    }
  }

  ghost predicate NoDuplicates(s: seq<Order>) {
    forall i, j :: 0 <= i < j < |s| ==> s[i] != s[j]
  }

  /** A set of orders in which the comparison never ties. */
  ghost predicate KeyedBy(s: seq<Order>) {
    forall a, b :: a in s && b in s && SameKey(a, b) ==> a == b
  }

  function InsertByPrice(o: Order, s: seq<Order>): seq<Order> {
    if s == [] || ByPriceAsc(o, s[0]) then [o] + s else [s[0]] + InsertByPrice(o, s[1..])
  }

  /** The library sort of a range by `ByPriceAsc`. */
  function SortByPrice(s: seq<Order>): seq<Order> {
    if s == [] then [] else InsertByPrice(s[0], SortByPrice(s[1..]))
  }

  /** The same sort run over the reversed range. */
  function SortByPriceReversed(s: seq<Order>): seq<Order> {
    var t := SortByPrice(s);
    seq(|t|, i requires 0 <= i < |t| => t[|t| - 1 - i])
  }

  lemma {:induction false} InsertSorts(o: Order, s: seq<Order>)
    requires Ascending(s) && forall x :: x in s ==> !SameKey(o, x)
    ensures Ascending(InsertByPrice(o, s))
    ensures forall x :: x in InsertByPrice(o, s) <==> x == o || x in s
  {
    if s == [] {
    } else if ByPriceAsc(o, s[0]) {
      forall i | 0 < i < |s| ensures ByPriceAsc(o, s[i]) { ByPriceTransitive(o, s[0], s[i]); }
    } else {
      ByPriceTotal(o, s[0]);
      InsertSorts(o, s[1..]);
      var t := InsertByPrice(o, s[1..]);
      forall x | x in t ensures ByPriceAsc(s[0], x) {
        if x != o {
          var i :| 0 <= i < |s[1..]| && s[1..][i] == x;
        }
      }
      assert s == [s[0]] + s[1..];
    }
  }

  lemma {:induction false} SortSorts(s: seq<Order>)
    requires NoDuplicates(s) && KeyedBy(s)
    ensures Ascending(SortByPrice(s)) && Descending(SortByPriceReversed(s))
    ensures CheapestFirst(SortByPrice(s)) && DearestFirst(SortByPriceReversed(s))
    ensures forall x :: x in SortByPrice(s) <==> x in s
    ensures forall x :: x in SortByPriceReversed(s) <==> x in s
  {
    hide CheapestFirst, DearestFirst, ByPriceAsc;
    if s != [] {
      var rest := s[1..];
      assert s == [s[0]] + rest;
      SortSorts(rest);
      InsertSorts(s[0], SortByPrice(rest));
    }
    var t := SortByPrice(s);
    var r := SortByPriceReversed(s);
    forall x | x in t ensures x in r {
      var i :| 0 <= i < |t| && t[i] == x;
      assert r[|t| - 1 - i] == x;
    }
    AscendingIsCheapestFirst(t);
    AscendingIsCheapestFirst(r);
  }

  /** A strictly sorted list is determined by what it contains. */
  lemma {:induction false} AscendingIsUnique(s: seq<Order>, t: seq<Order>)
    requires Ascending(s) && Ascending(t) && forall x :: x in s <==> x in t
    ensures s == t
  {
    assert t != [] ==> t[0] in t;
    if s != [] {
      assert s[0] in t && t[0] in s;
      ByPriceTotal(s[0], t[0]);
      assert s[0] == t[0];
      RestOfAscending(s);
      RestOfAscending(t);
      AscendingIsUnique(s[1..], t[1..]);
    }
  }

  lemma RestOfAscending(s: seq<Order>)
    requires s != [] && Ascending(s)
    ensures forall x :: x in s[1..] <==> x in s && x != s[0]
  {
    assert s == [s[0]] + s[1..];
    forall i | 0 < i < |s| ensures s[i] != s[0] { ByPriceTotal(s[0], s[0]); }
  }

  lemma DescendingIsUnique(s: seq<Order>, t: seq<Order>)
    requires Descending(s) && Descending(t) && forall x :: x in s <==> x in t
    ensures s == t
  {
    var rs := seq(|s|, i requires 0 <= i < |s| => s[|s| - 1 - i]);
    var rt := seq(|t|, i requires 0 <= i < |t| => t[|t| - 1 - i]);
    ReversedElements(s, rs);
    ReversedElements(t, rt);
    AscendingIsUnique(rs, rt);
    forall i | 0 <= i < |s| ensures s[i] == t[i] { assert rs[|s| - 1 - i] == rt[|s| - 1 - i]; }
  }

  lemma ReversedElements(s: seq<Order>, r: seq<Order>)
    requires |r| == |s| && forall i :: 0 <= i < |s| ==> r[i] == s[|s| - 1 - i]
    ensures forall x :: x in r <==> x in s
  {
    forall x | x in s ensures x in r {
      var i :| 0 <= i < |s| && s[i] == x;
      assert r[|s| - 1 - i] == x;
    }
  }
}
