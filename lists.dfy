/**
 * Order-preserving accumulation without duplicates, the idiom behind
 * `list(dict.fromkeys(xs))` and "append unless already present" loops.
 */
module Lists {

  predicate NoDuplicates<T(==)>(s: seq<T>)
  {
    forall i, j :: 0 <= i < j < |s| ==> s[i] != s[j]
  }

  /** `acc` followed by each item of `items` that is not already present, in order. */
  function AppendMissing<T(==)>(acc: seq<T>, items: seq<T>): (r: seq<T>)
    decreases |items|
  {
    if items == [] then acc
    else
      var last := items[|items| - 1];
      var before := AppendMissing(acc, items[..|items| - 1]);
      if last in before then before else before + [last]
  }

  /** `list(dict.fromkeys(items))`: the distinct items in first-occurrence order. */
  function Dedup<T(==)>(items: seq<T>): (r: seq<T>)
  {
    AppendMissing([], items)
  }

  /**
   * What `AppendMissing` is: it keeps `acc` as a prefix, adds exactly the
   * items, and adds no duplicates of its own.
   */
  lemma {:induction false} AppendMissingSpec<T>(acc: seq<T>, items: seq<T>)
    ensures |acc| <= |AppendMissing(acc, items)|
    ensures AppendMissing(acc, items)[..|acc|] == acc
    ensures forall x :: x in AppendMissing(acc, items) <==> x in acc || x in items
    ensures NoDuplicates(acc) ==> NoDuplicates(AppendMissing(acc, items))
    decreases |items|
  {
    if items != [] {
      var init := items[..|items| - 1];
      AppendMissingSpec(acc, init);
      assert forall x :: x in items <==> x in init || x == items[|items| - 1] by {
        assert items == init + [items[|items| - 1]];
      }
    }
  }

  /** Position of the first occurrence of `x` in `s`. */
  function IndexOf<T(==)>(s: seq<T>, x: T): (k: nat)
    requires x in s
    ensures k < |s| && s[k] == x
    ensures forall m :: 0 <= m < k ==> s[m] != x
  {
    if s[0] == x then 0 else 1 + IndexOf(s[1..], x)
  }

  /**
   * `Dedup` lists the distinct items in the order of their first
   * occurrence in `items`.
   */
  lemma {:induction false} DedupOrder<T>(items: seq<T>)
    ensures var r := Dedup(items);
      forall x :: x in r ==> x in items
    ensures var r := Dedup(items);
      forall i, j :: 0 <= i < j < |r| ==> IndexOf(items, r[i]) < IndexOf(items, r[j])
    decreases |items|
  {
    AppendMissingSpec([], items);
    if items != [] {
      var init := items[..|items| - 1];
      var last := items[|items| - 1];
      assert items == init + [last];
      DedupOrder(init);
      var before := Dedup(init);
      AppendMissingSpec([], init);
      forall x | x in before
        ensures IndexOf(items, x) == IndexOf(init, x)
      {
        FirstIndexInPrefix(init, last, x);
      }
      if last !in before {
        assert IndexOf(items, last) == |init|;
      }
    }
  }

  lemma FirstIndexInPrefix<T>(init: seq<T>, last: T, x: T)
    requires x in init
    ensures IndexOf(init + [last], x) == IndexOf(init, x)
  {
    var k := IndexOf(init, x);
    assert (init + [last])[k] == x;
  }

  /** A member of a non-empty sequence is in its front part or is its last element. */
  lemma MemberInitLast<T>(s: seq<T>, x: T)
    requires s != []
    ensures x in s <==> x in s[..|s| - 1] || x == s[|s| - 1]
  {
    assert s == s[..|s| - 1] + [s[|s| - 1]];
  }

  // ------------------------------------------------------- ascending order

  lemma HasElement(s: set<int>)
    requires s != {}
    ensures exists x :: x in s
  {
    if forall x :: x !in s {
      assert false;
    }
  }

  lemma {:induction false} LeastOf(s: set<int>) returns (m: int)
    requires s != {}
    ensures m in s && forall y :: y in s ==> m <= y
    decreases |s|
  {
    HasElement(s);
    var x :| x in s;
    var rest := s - {x};
    if rest == {} {
      assert s == {x};
      return x;
    }
    var r := LeastOf(rest);
    m := if x < r then x else r;
    assert forall y :: y in s ==> y == x || y in rest;
  }

  lemma LeastExists(s: set<int>)
    requires s != {}
    ensures exists m :: m in s && forall y :: y in s ==> m <= y
  {
    var m := LeastOf(s);
  }

  /** The smallest number of a non-empty set. */
  function Least(s: set<int>): (m: int)
    requires s != {}
    ensures m in s && forall y :: y in s ==> m <= y
  {
    LeastExists(s);
    var m :| m in s && forall y :: y in s ==> m <= y;
    m
  }

  /** The numbers of a finite set in ascending order, as `order_by` returns them. */
  function Ascending(s: set<int>): (r: seq<int>)
    ensures |r| == |s|
    ensures forall n :: n in r <==> n in s
    ensures forall i, j :: 0 <= i < j < |r| ==> r[i] < r[j]
    decreases s
  {
    if s == {} then []
    else
      var m := Least(s);
      var rest := Ascending(s - {m});
      AscendingCons(m, rest, s - {m});
      [m] + rest
  }

  /** Putting a number below every member in front of an ascending listing keeps it ascending. */
  lemma AscendingCons(m: int, rest: seq<int>, t: set<int>)
    requires forall n :: n in rest <==> n in t
    requires forall i, j :: 0 <= i < j < |rest| ==> rest[i] < rest[j]
    requires forall y :: y in t ==> m < y
    ensures forall i, j :: 0 <= i < j < |[m] + rest| ==> ([m] + rest)[i] < ([m] + rest)[j]
    ensures forall n :: n in [m] + rest <==> n == m || n in t
  {
    var r := [m] + rest;
    forall i, j | 0 <= i < j < |r|
      ensures r[i] < r[j]
    {
      assert r[j] == rest[j - 1];
      if i > 0 {
        assert r[i] == rest[i - 1];
      } else {
        assert rest[j - 1] in t;
      }
    }
  }
}
