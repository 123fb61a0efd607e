/** Identifiers, their order, fresh generation, and the sorting the schedulers rely on.

    Every registry of the control plane is keyed by strings.  Go compares strings
    lexicographically; `Less` is that order.  The empty string stands for "not set".
 */
module Ids {

  type Id = string

  /** Instants and durations, in any fixed unit. */
  type Time = int

  datatype Option<+T> = None | Some(value: T)

  const NO_ID: Id := ""

  predicate Less(a: Id, b: Id) {
    b != "" && (a == "" || a[0] < b[0] || (a[0] == b[0] && Less(a[1..], b[1..])))
  }

  lemma {:induction false} LessTotal(a: Id, b: Id)
    ensures a == b || Less(a, b) || Less(b, a)
  {
    if a != "" && b != "" && a[0] == b[0] {
      LessTotal(a[1..], b[1..]);
      assert a == [a[0]] + a[1..] && b == [b[0]] + b[1..];
    }
  }

  lemma {:induction false} LessAsymmetric(a: Id, b: Id)
    requires Less(a, b)
    ensures !Less(b, a) && a != b
  {
    if a != "" && a[0] == b[0] {
      LessAsymmetric(a[1..], b[1..]);
    }
  }

  lemma {:induction false} LessTransitive(a: Id, b: Id, c: Id)
    requires Less(a, b) && Less(b, c)
    ensures Less(a, c)
  {
    if a != "" && a[0] == b[0] == c[0] {
      LessTransitive(a[1..], b[1..], c[1..]);
    }
  }

  // ----- fresh identifiers

  lemma LengthBound(s: set<Id>) returns (n: nat)
    ensures forall x :: x in s ==> |x| <= n
  {
    n := 0;
    var rest := s;
    while rest != {}
      invariant rest <= s
      invariant forall x :: x in s && x !in rest ==> |x| <= n
      decreases rest
    {
      var x :| x in rest;
      if |x| > n { n := |x|; }
      rest := rest - {x};
    }
  }

  lemma FreshIdExists(used: set<Id>)
    ensures exists x: Id :: x !in used && x != NO_ID
  {
    var n := LengthBound(used);
    var y: Id := seq(n + 1, _ => 'a');
    assert |y| == n + 1;
    assert y !in used && y != NO_ID;
  }

  /** The random generators of the source, taken to return an unused, non-empty identifier. */
  method GenerateId(used: set<Id>) returns (id: Id)
    ensures id !in used && id != NO_ID
  {
    FreshIdExists(used);
    id :| id !in used && id != NO_ID;
  }

  // ----- sorting

  /** What a comparison must satisfy for `sort.Slice` to be meaningful. */
  ghost predicate WeakOrder<T(!new)>(less: (T, T) -> bool) {
    && (forall a, b :: less(a, b) ==> !less(b, a))
    && (forall a, b, c :: !less(a, b) && !less(b, c) ==> !less(a, c))
  }

  ghost predicate SortedBy<T(!new)>(xs: seq<T>, less: (T, T) -> bool) {
    forall i, j :: 0 <= i < j < |xs| ==> !less(xs[j], xs[i])
  }

  /** `sort.Slice` on a listing of distinct things that arrives in no particular order. */
  method SortBy<T(!new,==)>(s: set<T>, less: (T, T) -> bool) returns (ys: seq<T>)
    requires WeakOrder(less)
    ensures SortedBy(ys, less)
    ensures (forall y :: y in ys <==> y in s) && |ys| == |s|
  {
    ys := [];
    var todo := s;
    while todo != {}
      invariant todo <= s
      invariant SortedBy(ys, less)
      invariant forall y :: y in ys <==> y in s && y !in todo
      invariant |ys| + |todo| == |s|
      decreases todo
    {
      var x :| x in todo;
      var j := |ys|;
      while j > 0 && less(x, ys[j - 1])
        invariant 0 <= j <= |ys|
        invariant forall k :: j <= k < |ys| ==> less(x, ys[k])
      {
        j := j - 1;
      }
      InsertKeepsSorted(ys, x, j, less);
      assert forall y :: y in ys[..j] + [x] + ys[j..] <==> y == x || y in ys by {
        assert ys == ys[..j] + ys[j..];
      }
      ys := ys[..j] + [x] + ys[j..];
      todo := todo - {x};
    }
  }

  lemma InsertKeepsSorted<T(!new)>(ys: seq<T>, x: T, j: nat, less: (T, T) -> bool)
    requires WeakOrder(less) && SortedBy(ys, less)
    requires j <= |ys|
    requires j > 0 ==> !less(x, ys[j - 1])
    requires forall k :: j <= k < |ys| ==> less(x, ys[k])
    ensures SortedBy(ys[..j] + [x] + ys[j..], less)
  {
    forall k | 0 <= k < j
      ensures !less(x, ys[k])
    {
      assert !less(x, ys[j - 1]) && !less(ys[j - 1], ys[k]);
    }
  }

  lemma LessIsWeakOrder()
    ensures WeakOrder(Less)
  {
    forall a, b | Less(a, b)
      ensures !Less(b, a)
    {
      LessAsymmetric(a, b);
    }
    forall a, b, c | !Less(a, b) && !Less(b, c)
      ensures !Less(a, c)
    {
      LessTotal(a, b);
      LessTotal(b, c);
      if a != b && b != c {
        LessTransitive(c, b, a);
        LessAsymmetric(c, a);
      }
    }
  }

  ghost predicate Ascending(xs: seq<Id>) {
    forall i, j :: 0 <= i < j < |xs| ==> Less(xs[i], xs[j])
  }

  function Elements<T>(xs: seq<T>): set<T> {
    set x | x in xs
  }

  /** A set has only one ascending enumeration. */
  lemma {:induction false} AscendingUnique(xs: seq<Id>, ys: seq<Id>)
    requires Ascending(xs) && Ascending(ys)
    requires Elements(xs) == Elements(ys)
    ensures xs == ys
  {
    assert forall i :: 0 <= i < |xs| ==> xs[i] in Elements(ys);
    assert forall i :: 0 <= i < |ys| ==> ys[i] in Elements(xs);
    if xs != [] {
      assert xs[0] in ys;
      SameHead(xs, ys);
      AscendingTail(xs);
      AscendingTail(ys);
      AscendingUnique(xs[1..], ys[1..]);
      assert xs == [xs[0]] + xs[1..] && ys == [ys[0]] + ys[1..];
    }
  }

  lemma SameHead(xs: seq<Id>, ys: seq<Id>)
    requires Ascending(xs) && Ascending(ys)
    requires xs != [] && ys != []
    requires Elements(xs) == Elements(ys)
    ensures xs[0] == ys[0]
  {
    assert xs[0] in Elements(ys) && ys[0] in Elements(xs);
    var i :| 0 <= i < |ys| && ys[i] == xs[0];
    var j :| 0 <= j < |xs| && xs[j] == ys[0];
    if i != 0 && j != 0 {
      LessAsymmetric(xs[0], xs[j]);
    }
  }

  lemma AscendingTail(xs: seq<Id>)
    requires Ascending(xs) && xs != []
    ensures Ascending(xs[1..])
    ensures Elements(xs[1..]) == Elements(xs) - {xs[0]}
  {
    forall x | x in Elements(xs[1..])
      ensures x in Elements(xs) && x != xs[0]
    {
      var i :| 0 <= i < |xs[1..]| && xs[1..][i] == x;
      LessAsymmetric(xs[0], xs[i + 1]);
    }
    forall x | x in Elements(xs) && x != xs[0]
      ensures x in Elements(xs[1..])
    {
      var i :| 0 <= i < |xs| && xs[i] == x;
      assert xs[1..][i - 1] == x;
    }
  }

  /** The ascending enumeration of a set: its least element first. */
  ghost function Sorted(s: set<Id>): seq<Id> {
    if s == {} then [] else
      var m := Least(s);
      [m] + Sorted(s - {m})
  }

  ghost function Least(s: set<Id>): (m: Id)
    requires s != {}
    ensures m in s && forall x :: x in s && x != m ==> Less(m, x)
  {
    LeastExists(s);
    var m :| m in s && forall x :: x in s && x != m ==> Less(m, x);
    m
  }

  lemma {:induction false} SortedAscends(s: set<Id>)
    ensures Ascending(Sorted(s)) && Elements(Sorted(s)) == s && |Sorted(s)| == |s|
  {
    if s != {} {
      var m := Least(s);
      SortedAscends(s - {m});
      AscendingCons(m, s - {m}, Sorted(s - {m}));
    }
  }

  lemma AscendingCons(m: Id, s: set<Id>, rest: seq<Id>)
    requires Ascending(rest) && Elements(rest) == s && m !in s && forall x :: x in s ==> Less(m, x)
    ensures Ascending([m] + rest) && Elements([m] + rest) == s + {m}
  {
    forall i | 0 <= i < |rest| ensures Less(m, rest[i]) {
      assert rest[i] in Elements(rest);
    }
  }

  lemma SortedElements(s: set<Id>)
    ensures Elements(Sorted(s)) == s
  {
    SortedAscends(s);
  }

  lemma SortedDistinct(s: set<Id>)
    ensures forall i, j :: 0 <= i < j < |Sorted(s)| ==> Sorted(s)[i] != Sorted(s)[j]
  {
    var xs := Sorted(s);
    SortedAscends(s);
    forall i, j | 0 <= i < j < |xs| ensures xs[i] != xs[j] {
      LessAsymmetric(xs[i], xs[j]);
    }
  }

  /** Position by position, `Sorted` enumerates its set without repetition. */
  lemma SortedPrefix(s: set<Id>, k: nat)
    requires k < |Sorted(s)|
    ensures Sorted(s)[k] in s
    ensures Sorted(s)[k] !in Elements(Sorted(s)[..k])
    ensures Elements(Sorted(s)[..k + 1]) == Elements(Sorted(s)[..k]) + {Sorted(s)[k]}
    ensures Elements(Sorted(s)[..k + 1]) <= s
  {
    var xs := Sorted(s);
    SortedAscends(s);
    assert xs[k] in Elements(xs);
    forall i | 0 <= i < k ensures xs[i] != xs[k] {
      LessAsymmetric(xs[i], xs[k]);
    }
    assert xs[..k + 1] == xs[..k] + [xs[k]];
  }

  lemma {:induction false} LeastExists(s: set<Id>)
    requires s != {}
    ensures exists m :: m in s && forall x :: x in s && x != m ==> Less(m, x)
  {
    var m :| m in s;
    if s != {m} {
      LeastExists(s - {m});
      var m' :| m' in s - {m} && forall x :: x in s - {m} && x != m' ==> Less(m', x);
      LessTotal(m, m');
      if Less(m, m') {
        BelowLeast(s - {m}, m', m);
        assert forall x :: x in s && x != m ==> Less(m, x);
      } else {
        assert forall x :: x in s && x != m' ==> Less(m', x);
      }
    }
  }

  lemma BelowLeast(s: set<Id>, least: Id, m: Id)
    requires least in s && Less(m, least) && forall x :: x in s && x != least ==> Less(least, x)
    ensures forall x :: x in s ==> Less(m, x)
  {
    forall x | x in s ensures Less(m, x) {
      if x != least { LessTransitive(m, least, x); }
    }
  }

  /** `sort.Slice` by id. */
  method SortIds(s: set<Id>) returns (xs: seq<Id>)
    ensures xs == Sorted(s)
  {
    LessIsWeakOrder();
    xs := SortBy(s, Less);
    ListingAscends(xs, s);
    SortedAscends(s);
    AscendingUnique(xs, Sorted(s));
  }

  lemma ListingAscends(xs: seq<Id>, s: set<Id>)
    requires SortedBy(xs, Less)
    requires Elements(xs) == s && |xs| == |s|
    ensures Ascending(xs)
  {
    DistinctByCount(xs);
    forall i, j | 0 <= i < j < |xs|
      ensures Less(xs[i], xs[j])
    {
      LessTotal(xs[i], xs[j]);
    }
  }

  /** A listing as long as its set of elements repeats none of them. */
  lemma {:induction false} DistinctByCount<T>(xs: seq<T>)
    ensures |Elements(xs)| <= |xs|
    ensures |Elements(xs)| == |xs| ==> forall i, j :: 0 <= i < j < |xs| ==> xs[i] != xs[j]
  {
    if xs != [] {
      var rest := xs[..|xs| - 1];
      DistinctByCount(rest);
      var x := xs[|xs| - 1];
      assert xs == rest + [x];
      assert Elements(xs) == Elements(rest) + {x};
      if |Elements(xs)| == |xs| {
        assert x !in Elements(rest);
        assert forall i :: 0 <= i < |rest| ==> rest[i] in Elements(rest);
      }
    }
  }
}
