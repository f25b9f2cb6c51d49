/** Generic sequence operations standing in for Python's list helpers:
    filter, a stable sort by key, and string joining. */
module Seqs {

  /** list(filter(p, s)). */
  function Filter<T>(s: seq<T>, p: T -> bool): (r: seq<T>)
    ensures |r| <= |s|
  {
    if |s| == 0 then [] else (if p(s[0]) then [s[0]] else []) + Filter(s[1..], p)
  }

  /** Every element of a filtered list is in the list and passes the filter. */
  lemma {:induction false} FilterIn<T>(s: seq<T>, p: T -> bool)
    ensures forall x | x in Filter(s, p) :: x in s && p(x)
  {
    if |s| > 0 {
      FilterIn(s[1..], p);
    }
  }

  /** Lists with the same multiset of elements have the same members. */
  lemma SameMembers<T>(a: seq<T>, b: seq<T>)
    requires multiset(a) == multiset(b)
    ensures forall x | x in a :: x in b
  {
    forall x | x in a
      ensures x in b
    {
      assert x in multiset(a);
    }
  }

  /** Filter keeps exactly the elements that satisfy the predicate. */
  lemma {:induction false} FilterMembers<T>(s: seq<T>, p: T -> bool)
    ensures forall i | 0 <= i < |Filter(s, p)| :: Filter(s, p)[i] in s && p(Filter(s, p)[i])
    ensures forall i | 0 <= i < |s| && p(s[i]) :: s[i] in Filter(s, p)
  {
    if |s| > 0 {
      FilterMembers(s[1..], p);
      var r := Filter(s, p);
      var t := Filter(s[1..], p);
      var h := if p(s[0]) then [s[0]] else [];
      assert r == h + t;
      forall i | 0 <= i < |r|
        ensures r[i] in s && p(r[i])
      {
        if i >= |h| {
          assert r[i] == t[i - |h|];
        }
      }
      forall i | 0 <= i < |s| && p(s[i])
        ensures s[i] in r
      {
        if i > 0 {
          assert s[i] == s[1..][i - 1];
        }
      }
    }
  }

  /** Filtering keeps the order of the list: it distributes over concatenation. */
  lemma {:induction false} FilterAppend<T>(s: seq<T>, t: seq<T>, p: T -> bool)
    ensures Filter(s + t, p) == Filter(s, p) + Filter(t, p)
  {
    if |s| == 0 {
      assert s + t == t;
    } else {
      assert (s + t)[1..] == s[1..] + t;
      FilterAppend(s[1..], t, p);
      var h := if p(s[0]) then [s[0]] else [];
      assert Filter(s + t, p) == h + (Filter(s[1..], p) + Filter(t, p));
      assert h + (Filter(s[1..], p) + Filter(t, p)) == h + Filter(s[1..], p) + Filter(t, p);
    }
  }

  /** A sequence that extends a, split after a; its tail from k is a's
      tail from k, then what was added. */
  lemma ExtendSplit<T>(a: seq<T>, c: seq<T>, k: nat)
    requires a <= c && k <= |a|
    ensures c == a + c[|a|..] && c[k..] == a[k..] + c[|a|..]
  {
  }

  /** An extension of a + b + c still holds a, b and c at their places. */
  lemma ThreeParts<T>(a: seq<T>, b: seq<T>, c: seq<T>, r: seq<T>)
    requires a + b + c <= r
    ensures r[..|a|] == a && r[|a|..|a| + |b|] == b && r[|a| + |b|..|a| + |b| + |c|] == c
  {
    var s := a + b + c;
    assert r[..|s|] == s;
    assert s[..|a|] == a && s[|a|..|a| + |b|] == b && s[|a| + |b|..] == c;
  }

  /** What a sequence holds, every extension of it holds too. */
  lemma ExtendHolds<T>(a: seq<T>, c: seq<T>)
    requires a <= c
    ensures forall x | x in a :: x in c
  {
    forall x | x in a
      ensures x in c
    {
      var i :| 0 <= i < |a| && a[i] == x;
      assert c[i] == x;
    }
  }

  lemma FilterSingleton<T>(x: T, p: T -> bool)
    ensures Filter([x], p) == if p(x) then [x] else []
  {
    assert [x][1..] == [];
  }

  /** Filtering a list one element longer keeps that element exactly when
      it passes. */
  lemma FilterSnoc<T>(s: seq<T>, i: nat, p: T -> bool)
    requires i < |s|
    ensures p(s[i]) ==> Filter(s[..i + 1], p) == Filter(s[..i], p) + [s[i]]
    ensures !p(s[i]) ==> Filter(s[..i + 1], p) == Filter(s[..i], p)
  {
    assert s[..i + 1] == s[..i] + [s[i]];
    FilterAppend(s[..i], [s[i]], p);
    FilterSingleton(s[i], p);
    assert Filter(s[..i], p) + [] == Filter(s[..i], p);
  }

  /** A predicate and its negation split a list into two parts that together
      hold every element exactly as often as the list does. */
  lemma {:induction false} FilterPartition<T>(s: seq<T>, p: T -> bool, q: T -> bool)
    requires forall i | 0 <= i < |s| :: q(s[i]) == !p(s[i])
    ensures multiset(Filter(s, p)) + multiset(Filter(s, q)) == multiset(s)
    ensures |Filter(s, p)| + |Filter(s, q)| == |s|
  {
    if |s| > 0 {
      FilterPartition(s[1..], p, q);
      assert s == [s[0]] + s[1..];
    }
  }

  predicate SortedBy<T>(s: seq<T>, key: T -> nat)
  {
    forall i, j | 0 <= i < j < |s| :: key(s[i]) <= key(s[j])
  }

  /** Inserts x after every element whose key is not greater than x's. */
  function Insert<T>(x: T, s: seq<T>, key: T -> nat): (r: seq<T>)
    requires SortedBy(s, key)
    ensures SortedBy(r, key)
    ensures multiset(r) == multiset(s) + multiset{x}
  {
    if |s| == 0 then [x]
    else if key(x) < key(s[0]) then [x] + s
    else
      var rest := Insert(x, s[1..], key);
      InsertBehindHead(x, s, rest, key);
      [s[0]] + rest
  }

  /** The head of a sorted list goes back in front of the tail with x inserted. */
  lemma InsertBehindHead<T>(x: T, s: seq<T>, rest: seq<T>, key: T -> nat)
    requires |s| > 0 && SortedBy(s, key) && key(s[0]) <= key(x) && SortedBy(rest, key)
    requires multiset(rest) == multiset(s[1..]) + multiset{x}
    ensures SortedBy([s[0]] + rest, key)
    ensures multiset([s[0]] + rest) == multiset(s) + multiset{x}
  {
    forall y | y in rest
      ensures key(s[0]) <= key(y)
    {
      assert y in multiset(rest);
      assert y == x || y in multiset(s[1..]);
    }
    assert s == [s[0]] + s[1..];
  }

  /** list.sort(key = key): a stable sort, modelled as insertion from the back.
      The contract does not state stability: the writer sorts by pool index,
      and distinct items of a pool have distinct indices, so ties never arise
      there and any sorted permutation is the same list. */
  function SortBy<T>(s: seq<T>, key: T -> nat): (r: seq<T>)
    ensures SortedBy(r, key)
    ensures multiset(r) == multiset(s)
    ensures |r| == |s|
  {
    if |s| == 0 then []
    else
      var r := Insert(s[|s| - 1], SortBy(s[..|s| - 1], key), key);
      assert s == s[..|s| - 1] + [s[|s| - 1]];
      assert |r| == |multiset(r)|;
      r
  }

  /** ''.join(s). */
  function Concat(s: seq<string>): string
  {
    if |s| == 0 then "" else s[0] + Concat(s[1..])
  }

  /** sep.join(s). */
  function Join(s: seq<string>, sep: string): string
  {
    if |s| == 0 then "" else if |s| == 1 then s[0] else s[0] + sep + Join(s[1..], sep)
  }
}
