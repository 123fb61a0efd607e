/** The cursor both schedulers keep: the next eligible node in id order after the one used last, and back to
    the first at the end.  Over a fixed set of nodes this shares assignments evenly. */
module RoundRobin {
  import opened Ids

  ghost function After(eligible: set<Id>, cursor: Id): set<Id> {
    set m | m in eligible && Less(cursor, m)
  }

  ghost function Next(eligible: set<Id>, cursor: Id): (n: Id)
    requires eligible != {}
    ensures n in eligible
  {
    if cursor != NO_ID && After(eligible, cursor) != {} then Least(After(eligible, cursor)) else Least(eligible)
  }

  lemma LeastUnique(s: set<Id>, m: Id)
    requires m in s && forall x :: x in s && x != m ==> Less(m, x)
    ensures Least(s) == m
  {
    if Least(s) != m {
      LessAsymmetric(m, Least(s));
    }
  }

  /** In the ascending enumeration, the first element beyond the cursor is the next one. */
  lemma FirstBeyond(s: set<Id>, cursor: Id, i: nat)
    requires i < |Sorted(s)| && cursor != NO_ID
    requires Less(cursor, Sorted(s)[i])
    requires forall j :: 0 <= j < i ==> !Less(cursor, Sorted(s)[j])
    ensures s != {} && Next(s, cursor) == Sorted(s)[i]
  {
    var xs := Sorted(s);
    SortedAscends(s);
    assert xs[i] in Elements(xs);
    var beyond := After(s, cursor);
    assert xs[i] in beyond;
    forall x | x in beyond && x != xs[i] ensures Less(xs[i], x) {
      assert x in Elements(xs);
      var j :| 0 <= j < |xs| && xs[j] == x;
      assert j > i;
    }
    LeastUnique(beyond, xs[i]);
  }

  lemma NoneBeyond(s: set<Id>, cursor: Id)
    requires s != {}
    requires cursor == NO_ID || forall j :: 0 <= j < |Sorted(s)| ==> !Less(cursor, Sorted(s)[j])
    ensures |Sorted(s)| > 0 && Next(s, cursor) == Sorted(s)[0]
  {
    SortedAscends(s);
    if cursor != NO_ID {
      forall x | x in s ensures !Less(cursor, x) {
        assert x in Elements(Sorted(s));
      }
      assert After(s, cursor) == {};
    }
  }

  method PickNode(eligible: set<Id>, cursor: Id) returns (n: Id)
    requires eligible != {}
    ensures n == Next(eligible, cursor)
    // beyond the cursor with nothing in between, or the least of all when nothing is beyond
    ensures n in eligible
    ensures cursor != NO_ID && Less(cursor, n) ==> forall m :: m in eligible && Less(cursor, m) ==> m == n || Less(n, m)
    ensures cursor == NO_ID || !Less(cursor, n) ==>
              forall m :: m in eligible ==> (m == n || Less(n, m)) && (cursor != NO_ID ==> !Less(cursor, m))
  {
    var xs := SortIds(eligible);
    SortedAscends(eligible);
    var startIndex := 0;
    if cursor != NO_ID {
      var i := 0;
      while i < |xs|
        invariant 0 <= i <= |xs| && startIndex == 0
        invariant forall j :: 0 <= j < i ==> !Less(cursor, xs[j])
      {
        if Less(cursor, xs[i]) {
          FirstBeyond(eligible, cursor, i);
          startIndex := i;
          break;
        }
        i := i + 1;
      }
      if i == |xs| {
        NoneBeyond(eligible, cursor);
      }
    } else {
      NoneBeyond(eligible, cursor);
    }
    n := xs[startIndex];
    NextIs(eligible, cursor);
  }

  lemma NextIs(eligible: set<Id>, cursor: Id)
    requires eligible != {}
    ensures var n := Next(eligible, cursor);
            && (cursor != NO_ID && Less(cursor, n) ==> forall m :: m in eligible && Less(cursor, m) ==> m == n || Less(n, m))
            && (cursor == NO_ID || !Less(cursor, n) ==>
                  forall m :: m in eligible ==> (m == n || Less(n, m)) && (cursor != NO_ID ==> !Less(cursor, m)))
  {
    var beyond := After(eligible, cursor);
    assert forall m :: m in eligible && Less(cursor, m) ==> m in beyond;
  }

  // ----- fairness

  function Succ(i: nat, n: nat): nat
    requires i < n
  {
    if i + 1 < n then i + 1 else 0
  }

  /** From a node of the set the cursor moves to its cyclic successor. */
  lemma NextIsSuccessor(s: set<Id>, i: nat)
    requires NO_ID !in s && i < |Sorted(s)|
    ensures s != {} && Next(s, Sorted(s)[i]) == Sorted(s)[Succ(i, |Sorted(s)|)]
  {
    var xs := Sorted(s);
    SortedAscends(s);
    assert xs[i] in Elements(xs);
    forall j | 0 <= j <= i ensures !Less(xs[i], xs[j]) {
      if j < i { LessAsymmetric(xs[j], xs[i]); }
      if j == i && Less(xs[i], xs[i]) { LessAsymmetric(xs[i], xs[i]); }
    }
    if i + 1 < |xs| {
      FirstBeyond(s, xs[i], i + 1);
    } else {
      NoneBeyond(s, xs[i]);
    }
  }

  /** `picks` are consecutive assignments over a fixed eligible set, starting from any cursor. */
  ghost predicate Walk(s: set<Id>, cursor: Id, picks: seq<Id>)
    requires s != {}
  {
    forall k :: 0 <= k < |picks| ==> PickedNext(s, cursor, picks, k)
  }

  ghost predicate PickedNext(s: set<Id>, cursor: Id, picks: seq<Id>, k: nat)
    requires s != {} && k < |picks|
  {
    picks[k] == Next(s, if k == 0 then cursor else picks[k - 1])
  }

  ghost function Last(cursor: Id, picks: seq<Id>): Id {
    if picks == [] then cursor else picks[|picks| - 1]
  }

  /** Two walks of which the second continues the first are one walk: the cursor outlives a pass. */
  lemma WalksJoin(s: set<Id>, cursor: Id, a: seq<Id>, b: seq<Id>)
    requires s != {} && Walk(s, cursor, a) && Walk(s, Last(cursor, a), b)
    ensures Walk(s, cursor, a + b) && Last(cursor, a + b) == Last(Last(cursor, a), b)
  {
    var ab := a + b;
    forall k | 0 <= k < |ab| ensures PickedNext(s, cursor, ab, k) {
      if k < |a| {
        assert PickedNext(s, cursor, a, k);
      } else {
        assert PickedNext(s, Last(cursor, a), b, k - |a|);
      }
    }
  }

  lemma WalkPrefix(s: set<Id>, cursor: Id, picks: seq<Id>)
    requires s != {} && picks != [] && Walk(s, cursor, picks)
    ensures Walk(s, cursor, picks[..|picks| - 1])
    ensures picks[|picks| - 1] == Next(s, Last(cursor, picks[..|picks| - 1]))
  {
    var less := picks[..|picks| - 1];
    assert PickedNext(s, cursor, picks, |picks| - 1);
    forall k | 0 <= k < |less| ensures PickedNext(s, cursor, less, k) {
      assert PickedNext(s, cursor, picks, k);
    }
  }

  function Occurs(picks: seq<Id>, x: Id): nat {
    if picks == [] then 0
    else Occurs(picks[..|picks| - 1], x) + if picks[|picks| - 1] == x then 1 else 0
  }

  /** Whether index `i` lies on the cyclic way from `start` up to, not including, `end`. */
  predicate Passed(i: nat, start: nat, end: nat) {
    if start <= end then start <= i < end else i >= start || i < end
  }

  /** After some whole rounds from `start`, the walk stands before index `at`. */
  ghost predicate Shared(s: set<Id>, picks: seq<Id>, start: nat, at: nat, rounds: nat) {
    forall i :: 0 <= i < |Sorted(s)| ==>
      Occurs(picks, Sorted(s)[i]) == rounds + if Passed(i, start, at) then 1 else 0
  }

  lemma {:induction false} WalkShares(s: set<Id>, cursor: Id, picks: seq<Id>) returns (start: nat, at: nat, rounds: nat)
    requires s != {} && NO_ID !in s && Walk(s, cursor, picks)
    ensures start < |Sorted(s)| && at < |Sorted(s)|
    ensures Shared(s, picks, start, at, rounds)
    ensures Next(s, Last(cursor, picks)) == Sorted(s)[at]
  {
    var xs := Sorted(s);
    SortedAscends(s);
    if picks == [] {
      assert Next(s, cursor) in Elements(xs);
      at :| 0 <= at < |xs| && xs[at] == Next(s, cursor);
      start, rounds := at, 0;
    } else {
      WalkPrefix(s, cursor, picks);
      var before;
      start, before, rounds := WalkShares(s, cursor, picks[..|picks| - 1]);
      NextIsSuccessor(s, before);
      OnePickShares(s, picks, start, before, rounds);
      at := Succ(before, |xs|);
      if at == start {
        rounds := rounds + 1;
      }
    }
  }

  lemma OnePickShares(s: set<Id>, picks: seq<Id>, start: nat, at: nat, rounds: nat)
    requires start < |Sorted(s)| && at < |Sorted(s)|
    requires picks != [] && picks[|picks| - 1] == Sorted(s)[at]
    requires Shared(s, picks[..|picks| - 1], start, at, rounds)
    ensures var next := Succ(at, |Sorted(s)|);
            if next == start then Shared(s, picks, start, next, rounds + 1) else Shared(s, picks, start, next, rounds)
  {
    var xs, next := Sorted(s), Succ(at, |Sorted(s)|);
    SortedDistinct(s);
    var rounds' := if next == start then rounds + 1 else rounds;
    forall i | 0 <= i < |xs| ensures Occurs(picks, xs[i]) == rounds' + if Passed(i, start, next) then 1 else 0 {
      assert xs[i] == xs[at] <==> i == at;
    }
  }

  /** Round-robin fairness: in any window of assignments over a fixed eligible set, whatever the cursor it
      starts from, two nodes never differ by more than one. */
  lemma RoundRobinIsFair(s: set<Id>, cursor: Id, picks: seq<Id>, x: Id, y: Id)
    requires s != {} && NO_ID !in s && Walk(s, cursor, picks)
    requires x in s && y in s
    ensures Occurs(picks, x) <= Occurs(picks, y) + 1
  {
    var start, at, rounds := WalkShares(s, cursor, picks);
    SortedElements(s);
    assert x in Elements(Sorted(s)) && y in Elements(Sorted(s));
    var i :| 0 <= i < |Sorted(s)| && Sorted(s)[i] == x;
    var j :| 0 <= j < |Sorted(s)| && Sorted(s)[j] == y;
  }
}
