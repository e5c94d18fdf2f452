/** Orders, sorting and duplicate removal. `slices.Sort` and `slices.Compact` are modelled as
    functions; what the callers rely on is proved about them here. */
module Order {

  // ---------------------------------------------------------------- strings

  /** Go's string order: first differing element decides, a proper prefix is smaller. */
  predicate Less(a: string, b: string) {
    b != [] && (a == [] || a[0] < b[0] || (a[0] == b[0] && Less(a[1..], b[1..])))
  }

  lemma {:induction false} LessTotal(a: string, b: string)
    ensures !(Less(a, b) && Less(b, a))
    ensures a == b || Less(a, b) || Less(b, a)
    ensures !Less(a, a)
  {
    if a != [] {
      LessTotal(a[1..], if b == [] then [] else b[1..]);
      if b != [] && a[0] == b[0] && a[1..] == b[1..] {
        assert a == [a[0]] + a[1..] == b;
      }
    }
  }

  lemma {:induction false} LessTransitive(a: string, b: string, c: string)
    requires Less(a, b) && Less(b, c)
    ensures Less(a, c)
  {
    if a != [] && a[0] == b[0] == c[0] {
      LessTransitive(a[1..], b[1..], c[1..]);
    }
  }

  /** Up to `k` the strings agree, and there `a` ends or has the smaller character. */
  ghost predicate DecidedAt(a: string, b: string, k: nat) {
    k <= |a| && k < |b| && a[..k] == b[..k] && (k == |a| || a[k] < b[k])
  }

  /** The first difference decides, in ascending order, and a proper prefix is smaller. */
  lemma {:induction false} LessExactly(a: string, b: string)
    ensures Less(a, b) <==> exists k: nat :: DecidedAt(a, b, k)
  {
    if b == [] {
    } else if a == [] || a[0] != b[0] {
      assert a == [] || a[0] < b[0] ==> DecidedAt(a, b, 0);
      forall k: nat | DecidedAt(a, b, k)
        ensures a == [] || a[0] < b[0]
      {
        assert k > 0 ==> a[..k][0] == b[..k][0];
      }
    } else {
      LessExactly(a[1..], b[1..]);
      if Less(a[1..], b[1..]) {
        var k: nat :| DecidedAt(a[1..], b[1..], k);
        assert a[..k + 1] == [a[0]] + a[1..][..k] == [b[0]] + b[1..][..k] == b[..k + 1];
        assert DecidedAt(a, b, k + 1);
      }
      forall k: nat | DecidedAt(a, b, k)
        ensures k > 0 && DecidedAt(a[1..], b[1..], k - 1)
      {
        assert a[1..][..k - 1] == a[..k][1..] == b[..k][1..] == b[1..][..k - 1];
      }
    }
  }

  // ---------------------------------------------------------------- order relations

  /** A strict weak order, the contract that the sorting functions ask of a comparator. */
  ghost predicate StrictWeak<T(!new)>(less: (T, T) -> bool) {
    && (forall x, y :: less(x, y) ==> !less(y, x))
    && (forall x, y, z :: less(x, y) && less(y, z) ==> less(x, z))
    && (forall x, y, z :: !less(x, y) && !less(y, z) ==> !less(x, z))
  }

  /** A strict total order: only equal elements are tied. */
  ghost predicate StrictTotal<T(!new)>(less: (T, T) -> bool) {
    && (forall x, y :: less(x, y) ==> !less(y, x))
    && (forall x, y, z :: less(x, y) && less(y, z) ==> less(x, z))
    && (forall x, y :: x == y || less(x, y) || less(y, x))
  }

  lemma TotalIsWeak<T(!new)>(less: (T, T) -> bool)
    requires StrictTotal(less)
    ensures StrictWeak(less)
  {
    forall x, y, z | !less(x, y) && !less(y, z)
      ensures !less(x, z)
    {
      assert x == y || less(y, x);
      assert y == z || less(z, y);
    }
  }

  function StringLess(): (string, string) -> bool {
    (a, b) => Less(a, b)
  }

  lemma StringLessTotal()
    ensures StrictTotal(StringLess())
  {
    var less := StringLess();
    forall x, y
      ensures less(x, y) ==> !less(y, x)
      ensures x == y || less(x, y) || less(y, x)
    {
      LessTotal(x, y);
    }
    forall x, y, z | less(x, y) && less(y, z)
      ensures less(x, z)
    {
      LessTransitive(x, y, z);
    }
  }

  // ---------------------------------------------------------------- sorting

  ghost predicate Sorted<T>(less: (T, T) -> bool, s: seq<T>) {
    forall i, j :: 0 <= i < j < |s| ==> !less(s[j], s[i])
  }

  ghost predicate StrictlySorted<T>(less: (T, T) -> bool, s: seq<T>) {
    forall i, j :: 0 <= i < j < |s| ==> less(s[i], s[j])
  }

  ghost function Elements<T>(s: seq<T>): set<T> {
    set x | x in s
  }

  function Insert<T>(less: (T, T) -> bool, x: T, s: seq<T>): (r: seq<T>)
    ensures multiset(r) == multiset(s) + multiset{x}
  {
    if s == [] || !less(s[0], x) then [x] + s
    else
      assert s == [s[0]] + s[1..];
      [s[0]] + Insert(less, x, s[1..])
  }

  function Sort<T>(less: (T, T) -> bool, s: seq<T>): (r: seq<T>)
    ensures multiset(r) == multiset(s)
    ensures |r| == |s|
  {
    if s == [] then []
    else
      assert s == [s[0]] + s[1..];
      var r := Insert(less, s[0], Sort(less, s[1..]));
      assert |multiset(r)| == |r| && |multiset(s)| == |s|;
      r
  }

  lemma {:induction false} InsertSorted<T(!new)>(less: (T, T) -> bool, x: T, s: seq<T>)
    requires StrictWeak(less) && Sorted(less, s)
    ensures Sorted(less, Insert(less, x, s))
  {
    if s != [] && less(s[0], x) {
      InsertSorted(less, x, s[1..]);
      var t := Insert(less, x, s[1..]);
      forall j | 0 <= j < |t|
        ensures !less(t[j], s[0])
      {
        assert t[j] in multiset(s[1..]) + multiset{x};
      }
    } else if s != [] {
      forall j | 0 <= j < |s|
        ensures !less(s[j], x)
      {
        assert j == 0 || !less(s[j], s[0]);
      }
    }
  }

  /** What the callers rely on: sorting sorts and keeps exactly the given elements. */
  lemma {:induction false} SortSorts<T(!new)>(less: (T, T) -> bool, s: seq<T>)
    requires StrictWeak(less)
    ensures Sorted(less, Sort(less, s))
    ensures Elements(Sort(less, s)) == Elements(s)
  {
    var r := Sort(less, s);
    forall x
      ensures x in r <==> x in s
    {
      assert x in multiset(r) <==> x in multiset(s);
    }
    if s != [] {
      SortSorts(less, s[1..]);
      InsertSorted(less, s[0], Sort(less, s[1..]));
    }
  }

  lemma SplitLast<T>(s: seq<T>)
    requires s != []
    ensures forall x :: x in s <==> x in s[..|s| - 1] || x == s[|s| - 1]
  {
    assert s == s[..|s| - 1] + [s[|s| - 1]];
  }

  ghost predicate NoDuplicates<T>(s: seq<T>) {
    forall i, j :: 0 <= i < j < |s| ==> s[i] != s[j]
  }

  lemma {:induction false} OccursOnce<T>(s: seq<T>, x: T)
    requires NoDuplicates(s)
    ensures multiset(s)[x] <= 1
  {
    if s != [] {
      assert s == [s[0]] + s[1..];
      OccursOnce(s[1..], x);
      if s[0] == x {
        assert x !in s[1..];
        assert multiset(s[1..])[x] == 0;
      }
    }
  }

  lemma OccursTwice<T>(s: seq<T>, i: nat, j: nat)
    requires i < j < |s| && s[i] == s[j]
    ensures multiset(s)[s[i]] >= 2
  {
    assert s == s[..j] + s[j..];
    assert s[..j][i] == s[i] && s[j..][0] == s[i];
    assert s[i] in multiset(s[..j]) && s[i] in multiset(s[j..]);
  }

  /** Distinct elements sort to a strictly sorted list. */
  lemma SortStrict<T(!new)>(less: (T, T) -> bool, s: seq<T>)
    requires StrictTotal(less) && NoDuplicates(s)
    ensures StrictlySorted(less, Sort(less, s))
    ensures Elements(Sort(less, s)) == Elements(s)
  {
    TotalIsWeak(less);
    SortSorts(less, s);
    var t := Sort(less, s);
    forall i, j | 0 <= i < j < |t|
      ensures less(t[i], t[j])
    {
      OccursOnce(s, t[i]);
      if t[i] == t[j] {
        OccursTwice(t, i, j);
      }
    }
  }

  /** Adjacent equal elements collapse to the first of them. */
  function Compact<T(==)>(s: seq<T>): seq<T> {
    if |s| < 2 then s
    else
      var rest, last := s[..|s| - 1], s[|s| - 1];
      if last == rest[|rest| - 1] then Compact(rest) else Compact(rest) + [last]
  }

  lemma {:induction false} CompactStrict<T(!new)>(less: (T, T) -> bool, s: seq<T>)
    requires StrictTotal(less) && Sorted(less, s)
    ensures StrictlySorted(less, Compact(s))
    ensures Elements(Compact(s)) == Elements(s)
  {
    if |s| >= 2 {
      var rest, last := s[..|s| - 1], s[|s| - 1];
      CompactStrict(less, rest);
      var t := Compact(rest);
      assert s == rest + [last];
      assert Elements(s) == Elements(rest) + {last};
      if last == rest[|rest| - 1] {
        assert last in Elements(rest);
      } else {
        assert Elements(t + [last]) == Elements(t) + {last};
        forall j | 0 <= j < |t|
          ensures less(t[j], last)
        {
          assert t[j] in Elements(t);
          var k :| 0 <= k < |rest| && rest[k] == t[j];
          assert !less(last, s[|s| - 2]) && less(s[|s| - 2], last);
          assert k == |s| - 2 || !less(s[|s| - 2], s[k]);
        }
      }
    }
  }

  /** A set has one strictly sorted enumeration, so anything strictly sorted is determined by
      its elements. */
  lemma {:induction false} StrictlySortedUnique<T(!new)>(less: (T, T) -> bool, a: seq<T>, b: seq<T>)
    requires StrictTotal(less)
    requires StrictlySorted(less, a) && StrictlySorted(less, b)
    requires Elements(a) == Elements(b)
    ensures a == b
  {
    assert b != [] ==> b[0] in Elements(b);
    if a != [] {
      assert a[0] in Elements(a) && a[0] in Elements(b);
      assert b[0] in Elements(a);
      assert a[0] == b[0];
      forall x
        ensures x in Elements(a[1..]) <==> x in Elements(b[1..])
      {
        assert a == [a[0]] + a[1..] && b == [b[0]] + b[1..];
        assert x in Elements(a) <==> x in Elements(b);
        assert a[0] !in a[1..] && b[0] !in b[1..];
      }
      StrictlySortedUnique(less, a[1..], b[1..]);
    }
  }

  /** Sort then compact: the canonical form of a list used as a set. */
  function Canonical<T(==)>(less: (T, T) -> bool, s: seq<T>): seq<T> {
    Compact(Sort(less, s))
  }

  lemma CanonicalForm<T(!new)>(less: (T, T) -> bool, s: seq<T>)
    requires StrictTotal(less)
    ensures StrictlySorted(less, Canonical(less, s))
    ensures Elements(Canonical(less, s)) == Elements(s)
  {
    TotalIsWeak(less);
    SortSorts(less, s);
    CompactStrict(less, Sort(less, s));
  }

  /** The canonical form depends only on which elements occur. */
  lemma CanonicalUnique<T(!new)>(less: (T, T) -> bool, s: seq<T>, t: seq<T>)
    requires StrictTotal(less) && Elements(s) == Elements(t)
    ensures Canonical(less, s) == Canonical(less, t)
  {
    CanonicalForm(less, s);
    CanonicalForm(less, t);
    StrictlySortedUnique(less, Canonical(less, s), Canonical(less, t));
  }
}
