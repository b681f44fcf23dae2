/**
 * The aggregate tables of Dashboard.py (lines 76-104) and the top-N views the
 * bar charts draw from them (lines 191, 203, 268 and 278).
 */
module Tables {
  import opened Records
  import opened Grouping
  import opened Ranking

  /** Rows `head()` shows when called without an argument. */
  const DefaultHeadRows := 5

  /** Bounds of the "Quantidade de vendedores" number input. */
  const MinTopSellers := 2
  const MaxTopSellers := 10

  /** The groups of column `c`, ordered by measure `m`, largest first. */
  function RankedTable(rs: seq<SalesRecord>, c: Column, m: Measure): (t: seq<Summary>)
    ensures IsGroupTable(rs, c, t)
    ensures |t| == |KeysOf(rs, c)|
    ensures SortedDesc(t, m)
    ensures multiset(t) == multiset(Summaries(rs, c))
    ensures SumOf(t, m) == MeasureTotal(rs, m)
  {
    RankedTableSpec(rs, c, m);
    SortDesc(Summaries(rs, c), m)
  }

  lemma RankedTableSpec(rs: seq<SalesRecord>, c: Column, m: Measure)
    ensures IsGroupTable(rs, c, SortDesc(Summaries(rs, c), m))
    ensures |SortDesc(Summaries(rs, c), m)| == |KeysOf(rs, c)|
    ensures SumOf(SortDesc(Summaries(rs, c), m), m) == MeasureTotal(rs, m)
  {
    var t := SortDesc(Summaries(rs, c), m);
    SummariesDescribe(rs, c);
    SummariesConserve(rs, c, m);
    GroupTableSize(rs, c, Summaries(rs, c), t);
  }

  /** `receita_estados`: revenue per purchase location, coordinates from the
      location's first record, largest revenue first; the revenues add up to
      the total 'Preço'. */
  function LocationRevenue(rs: seq<SalesRecord>): (t: seq<Summary>)
    ensures IsGroupTable(rs, Location, t) && |t| == |KeysOf(rs, Location)|
    ensures SortedDesc(t, Revenue)
    ensures SumOf(t, Revenue) == MeasureTotal(rs, Revenue)
  {
    RankedTable(rs, Location, Revenue)
  }

  /** `vendas_estados`: number of sales per purchase location, coordinates
      from the location's first record, most sales first; the counts add up
      to the number of records. */
  function LocationSales(rs: seq<SalesRecord>): (t: seq<Summary>)
    ensures IsGroupTable(rs, Location, t) && |t| == |KeysOf(rs, Location)|
    ensures SortedDesc(t, Sales)
    ensures SumOf(t, Sales) == |rs|
  {
    SalesTotalIsLength(rs);
    RankedTable(rs, Location, Sales)
  }

  /** `receita_categorias`: revenue per product category, largest first. */
  function CategoryRevenue(rs: seq<SalesRecord>): (t: seq<Summary>)
    ensures IsGroupTable(rs, Category, t) && |t| == |KeysOf(rs, Category)|
    ensures SortedDesc(t, Revenue)
    ensures SumOf(t, Revenue) == MeasureTotal(rs, Revenue)
  {
    RankedTable(rs, Category, Revenue)
  }

  /** `vendas_categorias`: number of sales per product category, most first. */
  function CategorySales(rs: seq<SalesRecord>): (t: seq<Summary>)
    ensures IsGroupTable(rs, Category, t) && |t| == |KeysOf(rs, Category)|
    ensures SortedDesc(t, Sales)
    ensures SumOf(t, Sales) == |rs|
  {
    SalesTotalIsLength(rs);
    RankedTable(rs, Category, Sales)
  }

  /** `vendedores`: one row per seller holding both its 'sum' and its 'count';
      the sums add up to the total 'Preço' and the counts to the number of
      records. */
  function SellerTable(rs: seq<SalesRecord>): (t: seq<Summary>)
    ensures IsGroupTable(rs, Seller, t) && |t| == |KeysOf(rs, Seller)|
    ensures SumOf(t, Revenue) == MeasureTotal(rs, Revenue)
    ensures SumOf(t, Sales) == |rs|
  {
    SummariesDescribe(rs, Seller);
    SummariesConserve(rs, Seller, Revenue);
    SummariesConserve(rs, Seller, Sales);
    SalesTotalIsLength(rs);
    GroupTableSize(rs, Seller, Summaries(rs, Seller), Summaries(rs, Seller));
    Summaries(rs, Seller)
  }

  /** `receita_estados.head()` and `vendas_estados.head()`: the five (or
      fewer) locations with the largest measure; no location left out has a
      strictly larger measure than one shown. */
  function TopLocations(rs: seq<SalesRecord>, m: Measure): (top: seq<Summary>)
    ensures |top| == if DefaultHeadRows < |KeysOf(rs, Location)| then DefaultHeadRows else |KeysOf(rs, Location)|
    ensures top == RankedTable(rs, Location, m)[..|top|]
    ensures SortedDesc(top, m)
    ensures forall s :: s in top ==> Describes(rs, Location, s)
    ensures forall u, s :: u in RankedTable(rs, Location, m) && u !in top && s in top ==>
              Value(u, m) <= Value(s, m)
  {
    var t := RankedTable(rs, Location, m);
    HeadDominates(t, DefaultHeadRows, m);
    Head(t, DefaultHeadRows)
  }

  /** The seller table ordered by the measure, largest first: the
      `sort_values(..., ascending=False)` of lines 268 and 278. */
  function RankedSellers(rs: seq<SalesRecord>, m: Measure): (t: seq<Summary>)
    ensures IsGroupTable(rs, Seller, t) && |t| == |KeysOf(rs, Seller)|
    ensures SortedDesc(t, m)
    ensures multiset(t) == multiset(SellerTable(rs))
  {
    RankedSellersSpec(rs, m);
    SortDesc(SellerTable(rs), m)
  }

  lemma RankedSellersSpec(rs: seq<SalesRecord>, m: Measure)
    ensures IsGroupTable(rs, Seller, SortDesc(SellerTable(rs), m))
    ensures |SortDesc(SellerTable(rs), m)| == |KeysOf(rs, Seller)|
  {
    GroupTableSize(rs, Seller, SellerTable(rs), SortDesc(SellerTable(rs), m));
  }

  /** Lines 268 and 278: the `n` sellers with the largest 'sum' (or 'count'),
      or every seller when there are fewer, each seller once; no seller left
      out has a strictly larger measure than one shown. */
  function TopSellers(rs: seq<SalesRecord>, m: Measure, n: nat): (top: seq<Summary>)
    requires MinTopSellers <= n <= MaxTopSellers
    ensures |top| == if n < |KeysOf(rs, Seller)| then n else |KeysOf(rs, Seller)|
    ensures top == RankedSellers(rs, m)[..|top|]
    ensures KeysDistinct(top)
    ensures SortedDesc(top, m)
    ensures forall s :: s in top ==> Describes(rs, Seller, s)
    ensures forall u, s :: u in SellerTable(rs) && u !in top && s in top ==>
              Value(u, m) <= Value(s, m)
  {
    var t := RankedSellers(rs, m);
    HeadDominates(t, n, m);
    KeysDistinctPrefix(t, Head(t, n));
    forall u | u in SellerTable(rs) ensures u in t {
      assert u in multiset(SellerTable(rs));
    }
    Head(t, n)
  }
}
