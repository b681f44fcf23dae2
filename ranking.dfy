/**
 * `sort_values(<measure>, ascending=False)` and `head(n)` over aggregate
 * tables. pandas' default sort does not promise an order for ties; this
 * model's sort keeps tied rows in their incoming order.
 */
module Ranking {
  import opened Records
  import opened Grouping

  /** Rows are in non-increasing order of measure `m`. */
  ghost predicate SortedDesc(t: seq<Summary>, m: Measure)
  {
    forall i, j :: 0 <= i < j < |t| ==> Value(t[j], m) <= Value(t[i], m)
  }

  /** Places `x` ahead of the first row it is not smaller than. */
  function Insert(x: Summary, t: seq<Summary>, m: Measure): seq<Summary>
  {
    if t == [] || Value(t[0], m) <= Value(x, m) then [x] + t
    else [t[0]] + Insert(x, t[1..], m)
  }

  lemma {:induction false} InsertMultiset(x: Summary, t: seq<Summary>, m: Measure)
    ensures multiset(Insert(x, t, m)) == multiset{x} + multiset(t)
  {
    if t != [] && Value(x, m) < Value(t[0], m) {
      InsertMultiset(x, t[1..], m);
      assert t == [t[0]] + t[1..];
    }
  }

  lemma {:induction false} InsertSum(x: Summary, t: seq<Summary>, m: Measure, n: Measure)
    ensures SumOf(Insert(x, t, m), n) == Value(x, n) + SumOf(t, n)
  {
    if t == [] || Value(t[0], m) <= Value(x, m) {
      assert ([x] + t)[1..] == t;
    } else {
      InsertSum(x, t[1..], m, n);
      var rest := Insert(x, t[1..], m);
      assert ([t[0]] + rest)[1..] == rest;
    }
  }

  lemma {:induction false} InsertSorted(x: Summary, t: seq<Summary>, m: Measure)
    requires SortedDesc(t, m)
    ensures SortedDesc(Insert(x, t, m), m)
  {
    if t != [] && Value(x, m) < Value(t[0], m) {
      var rest := Insert(x, t[1..], m);
      InsertSorted(x, t[1..], m);
      InsertMultiset(x, t[1..], m);
      var r := [t[0]] + rest;
      forall j | 1 <= j < |r| ensures Value(r[j], m) <= Value(t[0], m) {
        assert r[j] == rest[j - 1];
        assert r[j] in multiset(rest);
        if r[j] != x {
          var k :| 1 <= k < |t| && t[k] == r[j];
        }
      }
    }
  }

  /** The table ordered by measure `m`, largest first: a reordering of its
      rows that keeps every total. */
  function SortDesc(t: seq<Summary>, m: Measure): (r: seq<Summary>)
    ensures SortedDesc(r, m)
    ensures multiset(r) == multiset(t)
    ensures SumOf(r, Revenue) == SumOf(t, Revenue)
    ensures SumOf(r, Sales) == SumOf(t, Sales)
  {
    if t == [] then []
    else
      var rest := SortDesc(t[1..], m);
      InsertSorted(t[0], rest, m);
      InsertMultiset(t[0], rest, m);
      InsertSum(t[0], rest, m, Revenue);
      InsertSum(t[0], rest, m, Sales);
      assert t == [t[0]] + t[1..];
      Insert(t[0], rest, m)
  }

  /** `head(n)`: the first `n` rows, or all of them when there are fewer. */
  function Head(t: seq<Summary>, n: nat): (h: seq<Summary>)
    ensures |h| == if n < |t| then n else |t|
    ensures forall i :: 0 <= i < |h| ==> h[i] == t[i]
  {
    if n < |t| then t[..n] else t
  }

  /** Taking the head of a sorted table keeps it sorted, and no row left out
      of the head has a strictly larger measure than a row in it. */
  lemma HeadDominates(t: seq<Summary>, n: nat, m: Measure)
    requires SortedDesc(t, m)
    ensures SortedDesc(Head(t, n), m)
    ensures forall u, s :: u in t && u !in Head(t, n) && s in Head(t, n) ==> Value(u, m) <= Value(s, m)
  {
  }
}
