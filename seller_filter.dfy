/**
 * The one client-side filter of Dashboard.py (lines 66-68): when the seller
 * multiselect is non-empty, only the records of the chosen sellers are kept.
 */
module SellerFilter {
  import opened Records

  /** `dados[dados['Vendedor'].isin(filtro_vendedores)]`: the records whose
      seller is among those chosen, in their original order. */
  function KeepSellers(rs: seq<SalesRecord>, chosen: seq<string>): (k: seq<SalesRecord>)
    ensures |k| <= |rs|
    ensures forall x :: x in k ==> x in rs && x.seller in chosen
  {
    if rs == [] then []
    else (if rs[0].seller in chosen then [rs[0]] else []) + KeepSellers(rs[1..], chosen)
  }

  /** Lines 67-68: an empty selection leaves the records alone. */
  function FilterBySellers(rs: seq<SalesRecord>, chosen: seq<string>): (f: seq<SalesRecord>)
    ensures |f| <= |rs|
    ensures forall x :: x in f ==> x in rs
    ensures chosen != [] ==> forall x :: x in f ==> x.seller in chosen
  {
    if chosen == [] then rs else KeepSellers(rs, chosen)
  }

  /** `a` is `b` with some elements dropped and the rest kept in order. */
  predicate IsSubsequence<T(==)>(a: seq<T>, b: seq<T>)
    decreases |b|
  {
    if a == [] then true
    else if b == [] then false
    else if a[0] == b[0] then IsSubsequence(a[1..], b[1..])
    else IsSubsequence(a, b[1..])
  }

  /** Keeping the chosen sellers' records drops exactly the others: each record
      keeps all its occurrences when its seller is chosen and none otherwise,
      and the survivors stay in their original order. */
  lemma {:induction false} KeepSellersExact(rs: seq<SalesRecord>, chosen: seq<string>)
    ensures IsSubsequence(KeepSellers(rs, chosen), rs)
    ensures forall x :: multiset(KeepSellers(rs, chosen))[x] ==
                        if x.seller in chosen then multiset(rs)[x] else 0
  {
    if rs != [] {
      KeepSellersExact(rs[1..], chosen);
      var rest := KeepSellers(rs[1..], chosen);
      assert rs == [rs[0]] + rs[1..];
      if rs[0].seller in chosen {
        assert KeepSellers(rs, chosen) == [rs[0]] + rest;
        assert KeepSellers(rs, chosen)[1..] == rest;
      } else {
        assert KeepSellers(rs, chosen) == rest;
        if rest != [] {
          assert multiset(rest)[rest[0]] > 0;
          assert rest[0] != rs[0];
        }
      }
    }
  }

  /** The filter as the dashboard applies it: no selection keeps every record;
      a selection keeps exactly the chosen sellers' records, in order. */
  lemma FilterBySellersExact(rs: seq<SalesRecord>, chosen: seq<string>)
    ensures chosen == [] ==> FilterBySellers(rs, chosen) == rs
    ensures IsSubsequence(FilterBySellers(rs, chosen), rs)
    ensures forall x :: multiset(FilterBySellers(rs, chosen))[x] ==
                        if chosen == [] || x.seller in chosen then multiset(rs)[x] else 0
    ensures forall x :: x in FilterBySellers(rs, chosen) <==>
                        x in rs && (chosen == [] || x.seller in chosen)
  {
    KeepSellersExact(rs, chosen);
    if chosen == [] {
      IsSubsequenceReflexive(rs);
    }
  }

  lemma {:induction false} IsSubsequenceReflexive<T>(s: seq<T>)
    ensures IsSubsequence(s, s)
  {
    if s != [] {
      IsSubsequenceReflexive(s[1..]);
    }
  }

  /** Filtering an already filtered record list changes nothing. */
  lemma {:induction false} KeepSellersIdempotent(rs: seq<SalesRecord>, chosen: seq<string>)
    ensures KeepSellers(KeepSellers(rs, chosen), chosen) == KeepSellers(rs, chosen)
  {
    if rs != [] {
      KeepSellersIdempotent(rs[1..], chosen);
      if rs[0].seller in chosen {
        var k := KeepSellers(rs, chosen);
        assert k == [rs[0]] + KeepSellers(rs[1..], chosen);
        assert k[0] == rs[0] && k[1..] == KeepSellers(rs[1..], chosen);
      } else {
        assert KeepSellers(rs, chosen) == KeepSellers(rs[1..], chosen);
      }
    }
  }

  /** Applying the seller filter twice equals applying it once. */
  lemma FilterBySellersIdempotent(rs: seq<SalesRecord>, chosen: seq<string>)
    ensures FilterBySellers(FilterBySellers(rs, chosen), chosen) == FilterBySellers(rs, chosen)
  {
    KeepSellersIdempotent(rs, chosen);
  }
}
