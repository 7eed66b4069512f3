/** Numbers added up along a list. */
module Sums {

  ghost function Sum<T(!new)>(f: T -> nat, s: seq<T>): nat {
    if s == [] then 0 else Sum(f, s[..|s| - 1]) + f(s[|s| - 1])
  }

  lemma SumOne<T(!new)>(f: T -> nat, x: T)
    ensures Sum(f, [x]) == f(x)
  {
    assert [x][..0] == [];
  }

  lemma {:induction false} SumConcat<T(!new)>(f: T -> nat, a: seq<T>, b: seq<T>)
    ensures Sum(f, a + b) == Sum(f, a) + Sum(f, b)
  {
    if b == [] {
      assert a + b == a;
    } else {
      var k := |b| - 1;
      SumConcat(f, a, b[..k]);
      assert (a + b)[..|a + b| - 1] == a + b[..k];
    }
  }

  /** Replacing one element by several. */
  lemma SumReplace<T(!new)>(f: T -> nat, s: seq<T>, i: nat, mid: seq<T>)
    requires i < |s|
    ensures Sum(f, s[..i] + mid + s[i + 1..]) + f(s[i]) == Sum(f, s) + Sum(f, mid)
  {
    hide Sum;
    SumConcat(f, s[..i] + mid, s[i + 1..]);
    SumConcat(f, s[..i], mid);
    SumConcat(f, s[..i], [s[i]]);
    SumConcat(f, s[..i] + [s[i]], s[i + 1..]);
    SumOne(f, s[i]);
    assert s[..i] + [s[i]] + s[i + 1..] == s;
  }

  lemma SumUpdate<T(!new)>(f: T -> nat, s: seq<T>, i: nat, x: T)
    requires i < |s|
    ensures Sum(f, s[i := x]) + f(s[i]) == Sum(f, s) + f(x)
  {
    SumReplace(f, s, i, [x]);
    SumOne(f, x);
    assert s[i := x] == s[..i] + [x] + s[i + 1..];
  }

  lemma SumRemove<T(!new)>(f: T -> nat, s: seq<T>, i: nat)
    requires i < |s|
    ensures Sum(f, s[..i] + s[i + 1..]) + f(s[i]) == Sum(f, s)
  {
    SumReplace(f, s, i, []);
    assert s[..i] + [] + s[i + 1..] == s[..i] + s[i + 1..];
  }

  lemma SumAppend<T(!new)>(f: T -> nat, s: seq<T>, x: T)
    ensures Sum(f, s + [x]) == Sum(f, s) + f(x)
  {
    SumConcat(f, s, [x]);
    SumOne(f, x);
  }

  lemma {:induction false} SumSame<T(!new)>(f: T -> nat, s: seq<T>, t: seq<T>)
    requires |s| == |t| && forall i :: 0 <= i < |s| ==> f(s[i]) == f(t[i])
    ensures Sum(f, s) == Sum(f, t)
  {
    if s != [] {
      SumSame(f, s[..|s| - 1], t[..|t| - 1]);
    }
  }

  lemma {:induction false} SumZero<T(!new)>(f: T -> nat, s: seq<T>)
    requires forall i :: 0 <= i < |s| ==> f(s[i]) == 0
    ensures Sum(f, s) == 0
  {
    if s != [] {
      SumZero(f, s[..|s| - 1]);
    }
  }

  lemma SumIncludes<T(!new)>(f: T -> nat, s: seq<T>, i: nat)
    requires i < |s|
    ensures f(s[i]) <= Sum(f, s)
  {
    SumRemove(f, s, i);
  }

  lemma SumIncludesTwo<T(!new)>(f: T -> nat, s: seq<T>, i: nat, j: nat)
    requires i < j < |s|
    ensures f(s[i]) + f(s[j]) <= Sum(f, s)
  {
    SumRemove(f, s, j);
    SumIncludes(f, s[..j] + s[j + 1..], i);
  }

  lemma {:induction false} SumHas<T(!new)>(f: T -> nat, s: seq<T>)
    requires Sum(f, s) > 0
    ensures exists i :: 0 <= i < |s| && f(s[i]) > 0
  {
    var k := |s| - 1;
    if f(s[k]) == 0 {
      SumHas(f, s[..k]);
      var i :| 0 <= i < k && f(s[..k][i]) > 0;
      assert s[i] == s[..k][i];
    }
  }
}
