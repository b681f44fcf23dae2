/**
 * The group-by behind every aggregate table of Dashboard.py: records are
 * grouped by one column, groups appear in the order their key is first seen
 * (the order `drop_duplicates` leaves), and each group is summarised by its
 * first record, its summed 'Preço' and its count of 'Preço'.
 */
module Grouping {
  import opened Records

  /** The columns the dashboard groups by. */
  datatype Column = Location | Category | Seller

  function Key(r: SalesRecord, c: Column): string
  {
    match c
    case Location => r.location
    case Category => r.category
    case Seller => r.seller
  }

  /** The distinct values of column `c` among the records. */
  function KeysOf(rs: seq<SalesRecord>, c: Column): set<string>
  {
    if rs == [] then {} else {Key(rs[0], c)} + KeysOf(rs[1..], c)
  }

  /** The records whose key is `k`, in their original order. */
  function Having(rs: seq<SalesRecord>, c: Column, k: string): seq<SalesRecord>
  {
    if rs == [] then []
    else (if Key(rs[0], c) == k then [rs[0]] else []) + Having(rs[1..], c, k)
  }

  /** The records whose key is not `k`, in their original order. */
  function Without(rs: seq<SalesRecord>, c: Column, k: string): (w: seq<SalesRecord>)
    ensures |w| <= |rs|
  {
    if rs == [] then []
    else (if Key(rs[0], c) == k then [] else [rs[0]]) + Without(rs[1..], c, k)
  }

  /** Index of the first record whose key is `k`: the row `drop_duplicates`
      keeps for that key. */
  function FirstIndex(rs: seq<SalesRecord>, c: Column, k: string): (i: nat)
    requires k in KeysOf(rs, c)
    ensures i < |rs| && Key(rs[i], c) == k
    decreases |rs|
  {
    if Key(rs[0], c) == k then 0 else 1 + FirstIndex(rs[1..], c, k)
  }

  /** No record before the first index has key `k`. */
  lemma {:induction false} FirstIndexIsEarliest(rs: seq<SalesRecord>, c: Column, k: string)
    requires k in KeysOf(rs, c)
    ensures forall j :: 0 <= j < FirstIndex(rs, c, k) ==> Key(rs[j], c) != k
  {
    if Key(rs[0], c) != k {
      FirstIndexIsEarliest(rs[1..], c, k);
      forall j | 1 <= j < FirstIndex(rs, c, k) ensures Key(rs[j], c) != k {
        assert rs[j] == rs[1..][j - 1];
      }
    }
  }

  /** Splitting by a key loses no measure. */
  lemma {:induction false} SplitByKey(rs: seq<SalesRecord>, c: Column, k: string, m: Measure)
    ensures MeasureTotal(Having(rs, c, k), m) + MeasureTotal(Without(rs, c, k), m) == MeasureTotal(rs, m)
  {
    if rs != [] {
      SplitByKey(rs[1..], c, k, m);
      var h := Having(rs[1..], c, k);
      var w := Without(rs[1..], c, k);
      if Key(rs[0], c) == k {
        assert Having(rs, c, k) == [rs[0]] + h;
        assert ([rs[0]] + h)[1..] == h;
        assert Without(rs, c, k) == w;
      } else {
        assert Without(rs, c, k) == [rs[0]] + w;
        assert ([rs[0]] + w)[1..] == w;
        assert Having(rs, c, k) == h;
      }
    }
  }

  /** Removing key `k` removes exactly that key. */
  lemma {:induction false} WithoutKeys(rs: seq<SalesRecord>, c: Column, k: string)
    ensures KeysOf(Without(rs, c, k), c) == KeysOf(rs, c) - {k}
  {
    if rs != [] {
      WithoutKeys(rs[1..], c, k);
      var w := Without(rs[1..], c, k);
      if Key(rs[0], c) != k {
        assert Without(rs, c, k) == [rs[0]] + w;
        assert ([rs[0]] + w)[1..] == w;
      } else {
        assert Without(rs, c, k) == w;
      }
    }
  }

  /** Removing another key leaves the group of `k` as it was. */
  lemma {:induction false} HavingWithout(rs: seq<SalesRecord>, c: Column, k: string, other: string)
    requires k != other
    ensures Having(Without(rs, c, other), c, k) == Having(rs, c, k)
  {
    if rs != [] {
      HavingWithout(rs[1..], c, k, other);
      var w := Without(rs[1..], c, other);
      if Key(rs[0], c) != other {
        assert Without(rs, c, other) == [rs[0]] + w;
        assert ([rs[0]] + w)[1..] == w;
      } else {
        assert Without(rs, c, other) == w;
      }
    }
  }

  /** The first record with key `k` heads that key's group. */
  lemma {:induction false} FirstIndexHeadsGroup(rs: seq<SalesRecord>, c: Column, k: string)
    requires k in KeysOf(rs, c)
    ensures Having(rs, c, k) != [] && Having(rs, c, k)[0] == rs[FirstIndex(rs, c, k)]
  {
    if Key(rs[0], c) != k {
      FirstIndexHeadsGroup(rs[1..], c, k);
      assert Having(rs, c, k) == Having(rs[1..], c, k);
      assert rs[FirstIndex(rs, c, k)] == rs[1..][FirstIndex(rs[1..], c, k)];
    }
  }

  /** One aggregate row: the group's key, the first record with that key
      (whose 'lat'/'lon' the location tables show), the group's summed
      'Preço' ('sum') and its number of records ('count'). */
  datatype Summary = Summary(key: string, first: SalesRecord, revenue: int, sales: nat)

  function Value(s: Summary, m: Measure): int
  {
    match m
    case Revenue => s.revenue
    case Sales => s.sales
  }

  /** Sum of one measure over a table's rows. */
  function SumOf(t: seq<Summary>, m: Measure): int
  {
    if t == [] then 0 else Value(t[0], m) + SumOf(t[1..], m)
  }

  function KeySet(t: seq<Summary>): set<string>
  {
    set s | s in t :: s.key
  }

  /** The per-group summaries in first-seen key order: `groupby(...)` followed
      by the `drop_duplicates(...).merge(...)` of lines 76-77 and 91-92, and
      `groupby('Vendedor')['Preço'].agg(['sum', 'count'])` of line 104. */
  function Summaries(rs: seq<SalesRecord>, c: Column): (t: seq<Summary>)
    ensures |t| <= |rs|
    decreases |rs|
  {
    if rs == [] then []
    else
      var k := Key(rs[0], c);
      var g := Having(rs, c, k);
      [Summary(k, rs[0], MeasureTotal(g, Revenue), |g|)] + Summaries(Without(rs[1..], c, k), c)
  }

  /** Row `s` is the true summary of its key's group in `rs`. */
  ghost predicate Describes(rs: seq<SalesRecord>, c: Column, s: Summary)
  {
    && s.key in KeysOf(rs, c)
    && s.first == rs[FirstIndex(rs, c, s.key)]
    && s.revenue == MeasureTotal(Having(rs, c, s.key), Revenue)
    && s.sales == |Having(rs, c, s.key)|
  }

  ghost predicate KeysDistinct(t: seq<Summary>)
  {
    forall i, j :: 0 <= i < j < |t| ==> t[i].key != t[j].key
  }

  /** The leading rows of a table with distinct keys have distinct keys. */
  lemma KeysDistinctPrefix(t: seq<Summary>, h: seq<Summary>)
    requires KeysDistinct(t) && |h| <= |t|
    requires forall i :: 0 <= i < |h| ==> h[i] == t[i]
    ensures KeysDistinct(h)
  {
  }

  /** `t` holds one row per distinct key of `rs`, and every row is that key's
      true summary. */
  ghost predicate IsGroupTable(rs: seq<SalesRecord>, c: Column, t: seq<Summary>)
  {
    && KeysDistinct(t)
    && KeySet(t) == KeysOf(rs, c)
    && forall s :: s in t ==> Describes(rs, c, s)
  }

  /** A row that truly summarises a group once the first record's key is
      removed also truly summarises it in the whole record list. */
  lemma DescribesAfterHead(rs: seq<SalesRecord>, c: Column, s: Summary)
    requires rs != []
    requires Describes(Without(rs[1..], c, Key(rs[0], c)), c, s)
    ensures Describes(rs, c, s)
  {
    var k := Key(rs[0], c);
    var w := Without(rs[1..], c, k);
    WithoutKeys(rs[1..], c, k);
    assert s.key != k && s.key in KeysOf(rs[1..], c);
    HavingWithout(rs[1..], c, s.key, k);
    assert Having(rs, c, s.key) == Having(rs[1..], c, s.key);
    FirstIndexHeadsGroup(w, c, s.key);
    FirstIndexHeadsGroup(rs, c, s.key);
  }


  /** A new key in front of a table with distinct keys keeps them distinct. */
  lemma DistinctCons(t: seq<Summary>)
    requires t != [] && KeysDistinct(t[1..]) && t[0].key !in KeySet(t[1..])
    ensures KeysDistinct(t)
  {
    forall i, j | 0 <= i < j < |t| ensures t[i].key != t[j].key {
      if i > 0 {
        assert t[i] == t[1..][i - 1] && t[j] == t[1..][j - 1];
      } else {
        assert t[j] in t[1..];
      }
    }
  }

  /** The summaries are the group table of the records. */
  lemma {:induction false} SummariesDescribe(rs: seq<SalesRecord>, c: Column)
    ensures IsGroupTable(rs, c, Summaries(rs, c))
    decreases |rs|
  {
    if rs != [] {
      var k := Key(rs[0], c);
      var w := Without(rs[1..], c, k);
      var rest := Summaries(w, c);
      var t := Summaries(rs, c);
      SummariesDescribe(w, c);
      WithoutKeys(rs[1..], c, k);
      assert t == [t[0]] + rest;
      assert t[0].key == k && k !in KeySet(rest);
      forall s | s in rest ensures Describes(rs, c, s) {
        DescribesAfterHead(rs, c, s);
      }
      assert Describes(rs, c, t[0]);
      DistinctCons(t);
      KeySetCons(t);
    }
  }

  /** Group rows conserve both measures: the revenues add up to the records'
      total 'Preço' and the counts to the number of records. */
  lemma {:induction false} SummariesConserve(rs: seq<SalesRecord>, c: Column, m: Measure)
    ensures SumOf(Summaries(rs, c), m) == MeasureTotal(rs, m)
    decreases |rs|
  {
    if rs != [] {
      var k := Key(rs[0], c);
      var w := Without(rs[1..], c, k);
      var g := Having(rs, c, k);
      SummariesConserve(w, c, m);
      SplitByKey(rs[1..], c, k, m);
      assert g == [rs[0]] + Having(rs[1..], c, k);
      assert ([rs[0]] + Having(rs[1..], c, k))[1..] == Having(rs[1..], c, k);
      SalesTotalIsLength(g);
    }
  }

  /** A table has at most as many distinct keys as rows. */
  lemma {:induction false} KeySetBound(t: seq<Summary>)
    ensures |KeySet(t)| <= |t|
  {
    if t != [] {
      KeySetBound(t[1..]);
      KeySetCons(t);
    }
  }

  lemma KeySetCons(t: seq<Summary>)
    requires t != []
    ensures KeySet(t) == {t[0].key} + KeySet(t[1..])
  {
  }

  /** A table has distinct keys exactly when it has as many keys as rows. */
  lemma {:induction false} DistinctByCount(t: seq<Summary>)
    ensures KeysDistinct(t) <==> |KeySet(t)| == |t|
  {
    if t != [] {
      DistinctByCount(t[1..]);
      KeySetBound(t[1..]);
      KeySetCons(t);
      if KeysDistinct(t) {
        assert KeysDistinct(t[1..]) by {
          forall i, j | 0 <= i < j < |t[1..]| ensures t[1..][i].key != t[1..][j].key {
            assert t[1..][i] == t[i + 1] && t[1..][j] == t[j + 1];
          }
        }
        assert t[0].key !in KeySet(t[1..]) by {
          forall s | s in t[1..] ensures s.key != t[0].key {
            var j :| 0 <= j < |t[1..]| && t[1..][j] == s;
            assert s == t[j + 1];
          }
        }
      }
      if |KeySet(t)| == |t| {
        assert t[0].key !in KeySet(t[1..]);
        forall i, j | 0 <= i < j < |t| ensures t[i].key != t[j].key {
          if i == 0 {
            assert t[j] in t[1..];
          } else {
            assert t[i] == t[1..][i - 1] && t[j] == t[1..][j - 1];
          }
        }
      }
    }
  }

  /** A group table has one row per distinct key, and any reordering of it is
      a group table too. */
  lemma GroupTableSize(rs: seq<SalesRecord>, c: Column, t: seq<Summary>, u: seq<Summary>)
    requires IsGroupTable(rs, c, t)
    requires multiset(u) == multiset(t)
    ensures |t| == |u| == |KeysOf(rs, c)|
    ensures IsGroupTable(rs, c, u)
  {
    DistinctByCount(t);
    assert |u| == |multiset(u)| == |multiset(t)| == |t|;
    assert forall s :: s in u <==> s in t by {
      forall s ensures s in u <==> s in t {
        assert s in u <==> s in multiset(u);
        assert s in t <==> s in multiset(t);
      }
    }
    assert KeySet(u) == KeySet(t);
    DistinctByCount(u);
  }
}
