/**
 Counting votes the way `collections.Counter` and a stable descending sort
 do: labels are ranked by how often they occur, and equal counts keep the
 order in which the labels were first seen.
 */
module Tally {
  import opened Common

  /** How often `x` occurs in `s`. */
  function Count<T(==)>(s: seq<T>, x: T): nat {
    multiset(s)[x]
  }

  /** The index of the first occurrence of `x` in `s`: its position in insertion order. */
  function First<T(==)>(s: seq<T>, x: T): (r: nat)
    requires x in s
    ensures r < |s| && s[r] == x
    ensures forall k :: 0 <= k < r ==> s[k] != x
  {
    if s[0] == x then 0 else 1 + First(s[1..], x)
  }

  /** `a` is ranked strictly ahead of `b` in the stable descending order of counts. */
  predicate Ahead<T(==)>(s: seq<T>, a: T, b: T)
    requires a in s && b in s
  {
    Count(s, a) > Count(s, b) || (Count(s, a) == Count(s, b) && First(s, a) < First(s, b))
  }

  /**
   The index of the best-ranked element of `s[..n]` outside `excluded`:
   highest count, and among equal counts the smallest index.
   */
  function PickAmong<T(==)>(s: seq<T>, n: nat, excluded: set<T>): (r: Option<nat>)
    requires n <= |s|
    ensures r.None? <==> forall k :: 0 <= k < n ==> s[k] in excluded
    ensures r.Some? ==> r.value < n && s[r.value] !in excluded
    ensures r.Some? ==> forall k :: 0 <= k < n && s[k] !in excluded ==>
      Count(s, s[k]) < Count(s, s[r.value]) || (Count(s, s[k]) == Count(s, s[r.value]) && r.value <= k)
    decreases n
  {
    if n == 0 then None
    else
      var prev := PickAmong(s, n - 1, excluded);
      var x := s[n - 1];
      if x in excluded then prev
      else if prev.None? || Count(s, x) > Count(s, s[prev.value]) then Some(n - 1)
      else prev
  }

  /** The element `PickAmong` chooses over all of `s` is ahead of every other candidate. */
  lemma PickIsAhead<T>(s: seq<T>, excluded: set<T>)
    requires PickAmong(s, |s|, excluded).Some?
    ensures var p := s[PickAmong(s, |s|, excluded).value];
      forall x :: x in s && x !in excluded && x != p ==> Ahead(s, p, x)
  {
  }

  /** `r` is a duplicate-free ranking of elements of `s`, in stable descending count order. */
  predicate Ranked<T(==)>(s: seq<T>, r: seq<T>) {
    && NoDups(r)
    && (forall i :: 0 <= i < |r| ==> r[i] in s)
    && (forall i, j :: 0 <= i < j < |r| && r[i] in s && r[j] in s ==> Ahead(s, r[i], r[j]))
  }

  /** Every element of `s` left out of `r` ranks behind everything in `r`. */
  predicate Dominates<T(==)>(s: seq<T>, r: seq<T>) {
    forall a, x :: a in r && x in s && x !in r && a in s ==> Ahead(s, a, x)
  }

  function TopFrom<T(==)>(s: seq<T>, k: nat, acc: seq<T>): (r: seq<T>)
    requires Ranked(s, acc) && Dominates(s, acc)
    ensures Ranked(s, r) && Dominates(s, r)
    ensures |r| <= |acc| + k
    ensures |r| < |acc| + k ==> forall x :: x in s ==> x in r
    decreases k
  {
    if k == 0 then acc
    else
      var excluded := set a | a in acc;
      match PickAmong(s, |s|, excluded)
      case None =>
        assert forall x :: x in s ==> x in acc by {
          forall x | x in s ensures x in acc {
            var i :| 0 <= i < |s| && s[i] == x;
            assert s[i] in excluded;
          }
        }
        acc
      case Some(i) =>
        PickIsAhead(s, excluded);
        var next := acc + [s[i]];
        assert Ranked(s, next) by {
          forall a, b | 0 <= a < b < |next| ensures next[a] != next[b] {
            if b == |acc| {
              assert next[a] in excluded;
            }
          }
        }
        TopFrom(s, k - 1, next)
  }

  /**
   `Counter(s).most_common(n)`: the `n` best-ranked distinct elements, or all
   of them when there are fewer.
   */
  function MostCommon<T(==)>(s: seq<T>, n: nat): (r: seq<T>)
    ensures Ranked(s, r) && Dominates(s, r)
    ensures |r| <= n
    ensures |r| < n ==> forall x :: x in s ==> x in r
  {
    TopFrom(s, n, [])
  }

  /** The labels of `s` ranked strictly ahead of `x`. */
  function Rivals<T(==)>(s: seq<T>, x: T): set<T>
    requires x in s
  {
    set y | y in s && Ahead(s, y, x)
  }

  /** The elements of a list, as a set, are no more than its length, and exactly that many without duplicates. */
  lemma {:induction false} SetOfSeqSize<T>(s: seq<T>)
    ensures |set x | x in s| <= |s|
    ensures NoDups(s) ==> |set x | x in s| == |s|
  {
    if |s| > 0 {
      var init := s[..|s| - 1];
      SetOfSeqSize(init);
      assert (set x | x in s) == (set x | x in init) + {s[|s| - 1]};
      if NoDups(s) {
        assert NoDups(init);
        assert s[|s| - 1] !in init;
      }
    }
  }

  lemma SubsetSize<T>(a: set<T>, b: set<T>)
    requires a <= b
    ensures |a| <= |b|
  {
    assert b == a + (b - a);
  }

  /**
   A label makes the top `n` exactly when fewer than `n` labels rank ahead
   of it: the cut `most_common(n)` makes does not depend on how the ranking
   was produced.
   */
  lemma {:induction false} MostCommonMembership<T>(s: seq<T>, n: nat, x: T)
    requires x in s
    ensures x in MostCommon(s, n) <==> |Rivals(s, x)| < n
  {
    var r := MostCommon(s, n);
    if x in r {
      var k :| 0 <= k < |r| && r[k] == x;
      assert Rivals(s, x) <= set y | y in r[..k] by {
        forall y | y in Rivals(s, x) ensures y in r[..k] {
          if y !in r {
            assert false;
          } else {
            var j :| 0 <= j < |r| && r[j] == y;
            if j >= k {
              assert false;
            }
            assert r[..k][j] == y;
          }
        }
      }
      SetOfSeqSize(r[..k]);
      SubsetSize(Rivals(s, x), (set y | y in r[..k]));
    } else {
      assert |r| == n;
      assert (set y | y in r) <= Rivals(s, x) by {
        forall y | y in r ensures y in Rivals(s, x) {
          var j :| 0 <= j < |r| && r[j] == y;
          assert r[j] in s;
          assert Ahead(s, y, x);
        }
      }
      SetOfSeqSize(r);
      SubsetSize((set y | y in r), Rivals(s, x));
    }
  }
}
