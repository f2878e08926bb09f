/** Sort, then drop adjacent duplicates: the canonical listing of a set. */
module Sorting {
  import opened Text

  ghost predicate StrictOrder<T(!new)>(less: (T, T) -> bool) {
    && (forall a :: !less(a, a))
    && (forall a, b :: less(a, b) || a == b || less(b, a))
    && (forall a, b, c :: less(a, b) && less(b, c) ==> less(a, c))
  }

  /** What a sort needs: elements may be equivalent without being equal. */
  ghost predicate WeakOrder<T(!new)>(less: (T, T) -> bool) {
    && (forall a, b :: less(a, b) ==> !less(b, a))
    && (forall a, b, c :: !less(a, b) && !less(b, c) ==> !less(a, c))
  }

  lemma StrictIsWeak<T(!new)>(less: (T, T) -> bool)
    requires StrictOrder(less)
    ensures WeakOrder(less)
  {
  }

  ghost predicate Ascending<T(!new)>(s: seq<T>, less: (T, T) -> bool) {
    forall i, j :: 0 <= i < j < |s| ==> less(s[i], s[j])
  }

  /** Sorted the way a library sort leaves it: nothing is after something greater. */
  ghost predicate Sorted<T(!new)>(s: seq<T>, less: (T, T) -> bool) {
    forall i, j :: 0 <= i < j < |s| ==> !less(s[j], s[i])
  }

  function Insert<T>(x: T, s: seq<T>, less: (T, T) -> bool): (r: seq<T>)
    ensures multiset(r) == multiset(s) + multiset{x}
  {
    if s == [] || !less(s[0], x) then
      assert [x] + s == [x] + s[..];
      [x] + s
    else
      assert s == [s[0]] + s[1..];
      [s[0]] + Insert(x, s[1..], less)
  }

  function Sort<T>(s: seq<T>, less: (T, T) -> bool): (r: seq<T>)
    ensures multiset(r) == multiset(s)
  {
    if s == [] then [] else
      assert s == [s[0]] + s[1..];
      Insert(s[0], Sort(s[1..], less), less)
  }

  function Compact<T(==, !new)>(s: seq<T>): (r: seq<T>)
    ensures forall x :: x in r <==> x in s
  {
    if |s| <= 1 then s
    else if s[0] == s[1] then
      assert s == [s[0]] + s[1..];
      Compact(s[1..])
    else
      assert s == [s[0]] + s[1..];
      [s[0]] + Compact(s[1..])
  }

  function Listing<T(==, !new)>(s: seq<T>, less: (T, T) -> bool): seq<T> {
    Compact(Sort(s, less))
  }

  lemma SameMultisetSameElements<T>(a: seq<T>, b: seq<T>)
    requires multiset(a) == multiset(b)
    ensures forall x :: x in a <==> x in b
  {
    forall x ensures x in a <==> x in b {
      assert x in a <==> x in multiset(a);
      assert x in b <==> x in multiset(b);
    }
  }

  lemma PrependSorted<T(!new)>(x: T, s: seq<T>, less: (T, T) -> bool)
    requires Sorted(s, less) && forall j :: 0 <= j < |s| ==> !less(s[j], x)
    ensures Sorted([x] + s, less)
  {
  }

  lemma {:induction false} InsertSorts<T(!new)>(x: T, s: seq<T>, less: (T, T) -> bool)
    requires WeakOrder(less) && Sorted(s, less)
    ensures Sorted(Insert(x, s, less), less)
  {
    if s == [] || !less(s[0], x) {
      PrependSorted(x, s, less);
    } else {
      InsertSorts(x, s[1..], less);
      var tail := Insert(x, s[1..], less);
      SameMultisetSameElements(tail, [x] + s[1..]);
      forall j | 0 <= j < |tail| ensures !less(tail[j], s[0]) {
        assert tail[j] in [x] + s[1..];
      }
      PrependSorted(s[0], tail, less);
    }
  }

  lemma {:induction false} SortSorts<T(!new)>(s: seq<T>, less: (T, T) -> bool)
    requires WeakOrder(less)
    ensures Sorted(Sort(s, less), less)
  {
    if s != [] {
      SortSorts(s[1..], less);
      InsertSorts(s[0], Sort(s[1..], less), less);
    }
  }

  lemma {:induction false} CompactAscends<T(!new)>(s: seq<T>, less: (T, T) -> bool)
    requires StrictOrder(less) && Sorted(s, less)
    ensures Ascending(Compact(s), less)
  {
    if |s| > 1 {
      CompactAscends(s[1..], less);
      if s[0] != s[1] {
        var tail := Compact(s[1..]);
        forall j | 0 <= j < |tail| ensures less(s[0], tail[j]) {
          assert tail[j] in s[1..];
          assert !less(tail[j], s[0]) && !less(s[1], s[0]);
          assert tail[j] == s[1] || !less(tail[j], s[1]);
        }
      }
    }
  }

  lemma SameElementsSameEmptiness<T>(a: seq<T>, b: seq<T>)
    requires forall x :: x in a ==> x in b
    ensures b == [] ==> a == []
  {
    assert a == [] || a[0] in a;
  }

  /** A strictly ascending listing is determined by its elements. */
  lemma {:induction false} AscendingUnique<T(!new)>(a: seq<T>, b: seq<T>, less: (T, T) -> bool)
    requires StrictOrder(less) && Ascending(a, less) && Ascending(b, less)
    requires forall x :: x in a <==> x in b
    ensures a == b
  {
    if a == [] {
      SameElementsSameEmptiness(b, a);
    } else {
      assert a[0] in b && b[0] in a;
      assert a[0] == b[0];
      forall x ensures x in a[1..] <==> x in b[1..] {
        assert x in a <==> x == a[0] || x in a[1..];
        assert x in b <==> x == b[0] || x in b[1..];
      }
      AscendingUnique(a[1..], b[1..], less);
      assert a == [a[0]] + a[1..] && b == [b[0]] + b[1..];
    }
  }

  lemma ListingAscends<T(!new)>(s: seq<T>, less: (T, T) -> bool)
    requires StrictOrder(less)
    ensures Ascending(Listing(s, less), less)
    ensures forall x :: x in Listing(s, less) <==> x in s
  {
    StrictIsWeak(less);
    SortSorts(s, less);
    CompactAscends(Sort(s, less), less);
    SameMultisetSameElements(Sort(s, less), s);
  }

  /** Two lists have one listing exactly when they have the same elements. */
  lemma ListingEqualIff<T(!new)>(a: seq<T>, b: seq<T>, less: (T, T) -> bool)
    requires StrictOrder(less)
    ensures Listing(a, less) == Listing(b, less) <==> forall x :: x in a <==> x in b
  {
    ListingAscends(a, less);
    ListingAscends(b, less);
    if forall x :: x in a <==> x in b {
      AscendingUnique(Listing(a, less), Listing(b, less), less);
    }
  }

  predicate Distinct<T(==)>(s: seq<T>) {
    forall i, j :: 0 <= i < j < |s| ==> s[i] != s[j]
  }

  lemma {:induction false} CountOnce<T>(s: seq<T>, x: T)
    requires Distinct(s)
    ensures multiset(s)[x] <= 1
  {
    if s != [] {
      CountOnce(s[1..], x);
      assert s == [s[0]] + s[1..];
    }
  }

  lemma NotTwice<T>(distinct: seq<T>, sorted: seq<T>, i: nat, j: nat)
    requires Distinct(distinct) && multiset(sorted) == multiset(distinct) && i < j < |sorted|
    ensures sorted[i] != sorted[j]
  {
    CountOnce(distinct, sorted[i]);
    assert sorted == sorted[..j] + sorted[j..] && sorted[..j][i] == sorted[i] && sorted[j..][0] == sorted[j];
    assert sorted[i] in sorted[..j] && sorted[j] in sorted[j..];
  }

  /** Sorting a list without duplicates gives the listing of its elements. */
  lemma SortedDistinctIsListing<T(!new)>(distinct: seq<T>, values: seq<T>, less: (T, T) -> bool)
    requires StrictOrder(less) && Distinct(distinct) && forall x :: x in distinct <==> x in values
    ensures Sort(distinct, less) == Listing(values, less)
  {
    var sorted := Sort(distinct, less);
    StrictIsWeak(less);
    SortSorts(distinct, less);
    SameMultisetSameElements(sorted, distinct);
    forall i, j | 0 <= i < j < |sorted| ensures less(sorted[i], sorted[j]) { NotTwice(distinct, sorted, i, j); }
    ListingAscends(values, less);
    AscendingUnique(sorted, Listing(values, less), less);
  }

  // ----- text -----

  lemma TextOrder()
    ensures StrictOrder(Less)
  {
    forall a ensures !Less(a, a) { LessIsIrreflexive(a); }
    forall a, b ensures Less(a, b) || a == b || Less(b, a) { LessIsTotal(a, b); }
    forall a, b, c | Less(a, b) && Less(b, c) ensures Less(a, c) { LessIsTransitive(a, b, c); }
  }
}
