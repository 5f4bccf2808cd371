/**
 The orders the program sorts by: Go's string order, and the stable sort of the
 standard library seen as a function of the comparator.
 */
module Ordering {

  // Go compares strings by their characters, a proper prefix first.
  predicate StrLess(a: string, b: string) {
    if b == [] then false
    else if a == [] then true
    else a[0] < b[0] || (a[0] == b[0] && StrLess(a[1..], b[1..]))
  }

  // The strings part at this place: the first one ends there, or has the smaller
  // character.
  predicate PartsAt(a: string, b: string, k: nat) {
    k <= |a| && k < |b| && a[..k] == b[..k] && (k == |a| || a[k] < b[k])
  }

  lemma {:induction false} StrLessIff(a: string, b: string)
    ensures StrLess(a, b) <==> exists k: nat :: PartsAt(a, b, k)
  {
    if a == [] || b == [] || a[0] != b[0] {
      assert PartsAt(a, b, 0) <==> StrLess(a, b);
      if k: nat :| PartsAt(a, b, k) && k > 0 {
        assert a[..k][0] == b[..k][0];
      }
    } else {
      StrLessIff(a[1..], b[1..]);
      if k: nat :| PartsAt(a[1..], b[1..], k) {
        assert a[..k + 1] == [a[0]] + a[1..][..k] && b[..k + 1] == [b[0]] + b[1..][..k];
        assert PartsAt(a, b, k + 1);
      }
      if k: nat :| PartsAt(a, b, k) {
        assert a[..k][1..] == a[1..][..k - 1] && b[..k][1..] == b[1..][..k - 1];
        assert PartsAt(a[1..], b[1..], k - 1);
      }
    }
  }

  lemma {:induction false} StrLessTrichotomy(a: string, b: string)
    ensures !(StrLess(a, b) && StrLess(b, a))
    ensures a == b ==> !StrLess(a, b)
    ensures a == b || StrLess(a, b) || StrLess(b, a)
  {
    if a != [] && b != [] {
      StrLessTrichotomy(a[1..], b[1..]);
      assert a == [a[0]] + a[1..] && b == [b[0]] + b[1..];
    }
  }

  lemma {:induction false} StrLessTransitive(a: string, b: string, c: string)
    requires StrLess(a, b) && StrLess(b, c)
    ensures StrLess(a, c)
  {
    if a != [] && a[0] == b[0] == c[0] {
      StrLessTransitive(a[1..], b[1..], c[1..]);
    }
  }

  lemma StrLessStrictTotal()
    ensures StrictTotal(StrLess)
  {
    forall a: string, b: string
      ensures !(StrLess(a, b) && StrLess(b, a)) && !StrLess(a, a) && (a == b || StrLess(a, b) || StrLess(b, a))
    {
      StrLessTrichotomy(a, b);
      StrLessTrichotomy(a, a);
    }
    forall a: string, b: string, c: string | StrLess(a, b) && StrLess(b, c)
      ensures StrLess(a, c)
    {
      StrLessTransitive(a, b, c);
    }
  }

  ghost predicate StrictWeak<T(!new)>(less: (T, T) -> bool) {
    && (forall a, b :: !(less(a, b) && less(b, a)))
    && (forall a, b, c :: less(a, b) && less(b, c) ==> less(a, c))
    && (forall a, b, c :: !less(a, b) && !less(b, c) ==> !less(a, c))
  }

  ghost predicate StrictTotal<T(!new)>(less: (T, T) -> bool) {
    && (forall a, b :: !(less(a, b) && less(b, a)))
    && (forall a, b, c :: less(a, b) && less(b, c) ==> less(a, c))
    && (forall a, b :: a == b || less(a, b) || less(b, a))
  }

  lemma TotalIsWeak<T(!new)>(less: (T, T) -> bool)
    requires StrictTotal(less)
    ensures StrictWeak(less)
  {
    forall a, b, c | !less(a, b) && !less(b, c)
      ensures !less(a, c)
    {
      assert a == b || less(b, a);
      assert b == c || less(c, b);
      assert a == c || less(c, a);
    }
  }

  ghost predicate Sorted<T(!new)>(less: (T, T) -> bool, s: seq<T>) {
    forall i, j :: 0 <= i < j < |s| ==> !less(s[j], s[i])
  }

  function Insert<T>(less: (T, T) -> bool, x: T, s: seq<T>): seq<T> {
    if s == [] then [x]
    else if less(s[0], x) then [s[0]] + Insert(less, x, s[1..])
    else [x] + s
  }

  // The stable sort: an element goes before the later ones it is not greater than.
  function SortBy<T>(less: (T, T) -> bool, s: seq<T>): seq<T> {
    if s == [] then [] else Insert(less, s[0], SortBy(less, s[1..]))
  }

  lemma {:induction false} InsertPermutes<T>(less: (T, T) -> bool, x: T, s: seq<T>)
    ensures multiset(Insert(less, x, s)) == multiset(s) + multiset{x}
  {
    if s != [] {
      assert s == [s[0]] + s[1..];
      if less(s[0], x) {
        InsertPermutes(less, x, s[1..]);
      }
    }
  }

  lemma {:induction false} SortByPermutes<T>(less: (T, T) -> bool, s: seq<T>)
    ensures multiset(SortBy(less, s)) == multiset(s)
    ensures |SortBy(less, s)| == |s|
  {
    if s != [] {
      SortByPermutes(less, s[1..]);
      InsertPermutes(less, s[0], SortBy(less, s[1..]));
      assert s == [s[0]] + s[1..];
    }
    assert |multiset(SortBy(less, s))| == |multiset(s)|;
  }

  lemma SortByMembers<T>(less: (T, T) -> bool, s: seq<T>, x: T)
    ensures x in SortBy(less, s) <==> x in s
  {
    SortByPermutes(less, s);
    assert x in SortBy(less, s) <==> x in multiset(SortBy(less, s));
    assert x in s <==> x in multiset(s);
  }

  lemma {:induction false} InsertSorted<T(!new)>(less: (T, T) -> bool, x: T, s: seq<T>)
    requires StrictWeak(less) && Sorted(less, s)
    ensures Sorted(less, Insert(less, x, s))
  {
    if s != [] && less(s[0], x) {
      InsertSorted(less, x, s[1..]);
      var rest := Insert(less, x, s[1..]);
      InsertPermutes(less, x, s[1..]);
      forall j | 0 <= j < |rest|
        ensures !less(rest[j], s[0])
      {
        assert rest[j] in multiset(rest);
        assert rest[j] == x || rest[j] in s[1..];
      }
    }
  }

  lemma {:induction false} SortBySorted<T(!new)>(less: (T, T) -> bool, s: seq<T>)
    requires StrictWeak(less)
    ensures Sorted(less, SortBy(less, s))
  {
    if s != [] {
      SortBySorted(less, s[1..]);
      InsertSorted(less, s[0], SortBy(less, s[1..]));
    }
  }

  // Every element equivalent to c, in sequence order.
  function Peers<T>(less: (T, T) -> bool, c: T, s: seq<T>): seq<T> {
    if s == [] then []
    else (if !less(s[0], c) && !less(c, s[0]) then [s[0]] else []) + Peers(less, c, s[1..])
  }

  lemma {:induction false} InsertStable<T(!new)>(less: (T, T) -> bool, x: T, s: seq<T>, c: T)
    requires StrictWeak(less)
    ensures Peers(less, c, Insert(less, x, s)) == Peers(less, c, [x] + s)
  {
    assert ([x] + s)[1..] == s;
    if s != [] && less(s[0], x) {
      InsertStable(less, x, s[1..], c);
      assert ([x] + s[1..])[1..] == s[1..];
      assert Insert(less, x, s)[1..] == Insert(less, x, s[1..]);
    }
  }

  // Stability: elements that compare equal keep their order.
  lemma {:induction false} SortByStable<T(!new)>(less: (T, T) -> bool, s: seq<T>, c: T)
    requires StrictWeak(less)
    ensures Peers(less, c, SortBy(less, s)) == Peers(less, c, s)
  {
    if s != [] {
      var rest := SortBy(less, s[1..]);
      SortByStable(less, s[1..], c);
      InsertStable(less, s[0], rest, c);
      assert ([s[0]] + rest)[1..] == rest;
    }
  }

  lemma SortedHead<T(!new)>(less: (T, T) -> bool, s: seq<T>, x: T)
    requires StrictTotal(less) && Sorted(less, s) && x in s
    ensures s[0] == x || less(s[0], x)
  {
    var i :| 0 <= i < |s| && s[i] == x;
    if i > 0 {
      assert !less(s[i], s[0]);
    }
  }

  // A strict total order leaves one sorted arrangement of a multiset.
  lemma {:induction false} SortedUnique<T(!new)>(less: (T, T) -> bool, s: seq<T>, t: seq<T>)
    requires StrictTotal(less) && Sorted(less, s) && Sorted(less, t)
    requires multiset(s) == multiset(t)
    ensures s == t
  {
    assert |multiset(s)| == |s| && |multiset(t)| == |t|;
    if s != [] {
      assert s[0] in multiset(t) && t[0] in multiset(s);
      SortedHead(less, s, t[0]);
      SortedHead(less, t, s[0]);
      assert s[0] == t[0];
      assert s == [s[0]] + s[1..] && t == [t[0]] + t[1..];
      assert multiset(s[1..]) == multiset(s) - multiset{s[0]};
      assert multiset(t[1..]) == multiset(t) - multiset{t[0]};
      SortedUnique(less, s[1..], t[1..]);
    }
  }

  ghost predicate Distinct<T>(s: seq<T>) {
    forall i, j :: 0 <= i < j < |s| ==> s[i] != s[j]
  }

  lemma DistinctCounts<T>(s: seq<T>)
    requires Distinct(s)
    ensures forall x :: multiset(s)[x] == if x in s then 1 else 0
  {
    if s != [] {
      var n := |s| - 1;
      assert s == s[..n] + [s[n]];
      DistinctCounts(s[..n]);
    }
  }

  lemma DistinctSameSet<T>(s: seq<T>, t: seq<T>)
    requires Distinct(s) && Distinct(t)
    requires forall x :: x in s <==> x in t
    ensures multiset(s) == multiset(t)
  {
    DistinctCounts(s);
    DistinctCounts(t);
  }

  lemma DistinctFromCounts<T>(s: seq<T>)
    requires forall x :: multiset(s)[x] <= 1
    ensures Distinct(s)
  {
    forall i, j | 0 <= i < j < |s|
      ensures s[i] != s[j]
    {
      assert s == s[..j] + s[j..] && s[j..] == [s[j]] + s[j + 1..];
      assert s[i] in s[..j];
      assert multiset(s)[s[i]] == multiset(s[..j])[s[i]] + multiset(s[j..])[s[i]];
      assert multiset(s[..j])[s[i]] >= 1;
      assert multiset(s[j..])[s[j]] >= 1;
    }
  }

  lemma SortByDistinct<T>(less: (T, T) -> bool, s: seq<T>)
    requires Distinct(s)
    ensures Distinct(SortBy(less, s))
  {
    SortByPermutes(less, s);
    DistinctCounts(s);
    DistinctFromCounts(SortBy(less, s));
  }

  // The elements of a set in some order.
  ghost function Elements<T(!new)>(s: set<T>): seq<T> {
    if s == {} then [] else
      var x :| x in s;
      [x] + Elements(s - {x})
  }

  lemma {:induction false} ElementsOf<T(!new)>(s: set<T>)
    ensures Distinct(Elements(s))
    ensures forall x :: x in Elements(s) <==> x in s
  {
    if s != {} {
      var all := Elements(s);
      ElementsOf(s - {all[0]});
      assert all == [all[0]] + Elements(s - {all[0]});
    }
  }

  // The elements of a set of strings in ascending order.
  ghost function Ascending(s: set<string>): seq<string> {
    SortBy(StrLess, Elements(s))
  }

  lemma AscendingOf(s: set<string>)
    ensures Distinct(Ascending(s)) && Sorted(StrLess, Ascending(s))
    ensures forall x :: x in Ascending(s) <==> x in s
  {
    ElementsOf(s);
    StrLessStrictTotal();
    TotalIsWeak(StrLess);
    SortBySorted(StrLess, Elements(s));
    SortByDistinct(StrLess, Elements(s));
    forall x
      ensures x in Ascending(s) <==> x in s
    {
      SortByMembers(StrLess, Elements(s), x);
    }
  }

  // However the elements were listed, sorting them gives the same sequence.
  lemma ListingSorts(s: set<string>, listing: seq<string>)
    requires Distinct(listing)
    requires forall x :: x in listing <==> x in s
    ensures SortBy(StrLess, listing) == Ascending(s)
  {
    AscendingOf(s);
    ElementsOf(s);
    StrLessStrictTotal();
    TotalIsWeak(StrLess);
    SortBySorted(StrLess, listing);
    DistinctSameSet(listing, Elements(s));
    SortByPermutes(StrLess, listing);
    SortByPermutes(StrLess, Elements(s));
    SortedUnique(StrLess, SortBy(StrLess, listing), Ascending(s));
  }

  // The keys of a map in ascending order, however the map lists them.
  method SortedKeys(keys: set<string>) returns (order: seq<string>)
    ensures order == Ascending(keys)
  {
    order := [];
    var rest := keys;
    while rest != {}
      invariant rest <= keys && Distinct(order)
      invariant forall key :: key in order <==> key in keys - rest
      decreases |rest|
    {
      var key :| key in rest;
      assert key !in order;
      order := order + [key];
      rest := rest - {key};
    }
    ListingSorts(keys, order);
    order := SortBy(StrLess, order);
  }
}
