/**
 * The month tables of Dashboard.py (lines 81-83 and 95-97):
 * `groupby(pd.Grouper(freq='M'))` over the purchase date yields one row per
 * calendar month from the earliest purchase's month to the latest one's,
 * empty months included, in chronological order; the 'Ano' and 'Mês' columns
 * are then assigned from each row's month.
 */
module Monthly {
  import opened Wrappers
  import opened Records

  datatype YearMonth = YearMonth(year: int, month: Month)

  /** Months elapsed since January of year 0. */
  function MonthIndex(ym: YearMonth): int
  {
    ym.year * 12 + (ym.month - 1)
  }

  /** The calendar month `i` months after January of year 0. */
  function MonthAt(i: int): YearMonth
  {
    YearMonth(i / 12, i % 12 + 1)
  }

  /** Counting months and naming them are inverse to each other. */
  lemma MonthIndexRoundTrip(ym: YearMonth, i: int)
    ensures MonthAt(MonthIndex(ym)) == ym
    ensures MonthIndex(MonthAt(i)) == i
  {
  }

  /** Calendar order: an earlier year, or the same year and an earlier month. */
  predicate Before(a: YearMonth, b: YearMonth)
  {
    a.year < b.year || (a.year == b.year && a.month < b.month)
  }

  /** Month indices follow calendar order. */
  lemma MonthIndexOrder(a: YearMonth, b: YearMonth)
    ensures MonthIndex(a) < MonthIndex(b) <==> Before(a, b)
  {
  }

  function PurchaseMonth(r: SalesRecord): YearMonth
  {
    YearMonth(r.date.year, r.date.month)
  }

  function MonthOf(r: SalesRecord): int
  {
    MonthIndex(PurchaseMonth(r))
  }

  /** The month of the earliest purchase. */
  function FirstMonth(rs: seq<SalesRecord>): (lo: int)
    requires rs != []
    ensures forall r :: r in rs ==> lo <= MonthOf(r)
    ensures exists r :: r in rs && MonthOf(r) == lo
  {
    if |rs| == 1 then MonthOf(rs[0])
    else
      var rest := FirstMonth(rs[1..]);
      assert forall r :: r in rs ==> r == rs[0] || r in rs[1..];
      if MonthOf(rs[0]) <= rest then MonthOf(rs[0]) else rest
  }

  /** The month of the latest purchase. */
  function LastMonth(rs: seq<SalesRecord>): (hi: int)
    requires rs != []
    ensures forall r :: r in rs ==> MonthOf(r) <= hi
    ensures exists r :: r in rs && MonthOf(r) == hi
  {
    if |rs| == 1 then MonthOf(rs[0])
    else
      var rest := LastMonth(rs[1..]);
      assert forall r :: r in rs ==> r == rs[0] || r in rs[1..];
      if rest <= MonthOf(rs[0]) then MonthOf(rs[0]) else rest
  }

  /** Number of rows the grouper emits: every month from the first purchase
      to the last, or none without records. */
  function MonthSpan(rs: seq<SalesRecord>): nat
  {
    if rs == [] then 0 else LastMonth(rs) - FirstMonth(rs) + 1
  }

  /** The measure of the records purchased in month `i` (0 when there are none). */
  function InMonth(rs: seq<SalesRecord>, i: int, m: Measure): int
  {
    if rs == [] then 0
    else (if MonthOf(rs[0]) == i then Weight(rs[0], m) else 0) + InMonth(rs[1..], i, m)
  }

  /** `n` consecutive months starting with month `lo`. */
  function Months(lo: int, n: nat): (ms: seq<YearMonth>)
    ensures |ms| == n
    decreases n
  {
    if n == 0 then [] else [MonthAt(lo)] + Months(lo + 1, n - 1)
  }

  /** The measures of `n` consecutive months starting with month `lo`. */
  function Spread(rs: seq<SalesRecord>, lo: int, n: nat, m: Measure): (vs: seq<int>)
    ensures |vs| == n
    decreases n
  {
    if n == 0 then [] else [InMonth(rs, lo, m)] + Spread(rs, lo + 1, n - 1, m)
  }

  /** The 'Data da Compra' column of the month table. */
  function MonthBins(rs: seq<SalesRecord>): (bins: seq<YearMonth>)
    ensures |bins| == MonthSpan(rs)
  {
    if rs == [] then [] else Months(FirstMonth(rs), MonthSpan(rs))
  }

  /** The 'Preço' column of the month table: `sum()` for Revenue (line 81),
      `count()` for Sales (line 95). */
  function MonthlyValues(rs: seq<SalesRecord>, m: Measure): (vs: seq<int>)
    ensures |vs| == |MonthBins(rs)|
  {
    if rs == [] then [] else Spread(rs, FirstMonth(rs), MonthSpan(rs), m)
  }

  function Sum(vs: seq<int>): int
  {
    if vs == [] then 0 else vs[0] + Sum(vs[1..])
  }

  lemma {:induction false} MonthsAt(lo: int, n: nat, j: int)
    requires 0 <= j < n
    decreases n
    ensures Months(lo, n)[j] == MonthAt(lo + j)
  {
    if j > 0 {
      MonthsAt(lo + 1, n - 1, j - 1);
    }
  }

  lemma {:induction false} SpreadAt(rs: seq<SalesRecord>, lo: int, n: nat, m: Measure, j: int)
    requires 0 <= j < n
    decreases n
    ensures Spread(rs, lo, n, m)[j] == InMonth(rs, lo + j, m)
  {
    if j > 0 {
      SpreadAt(rs, lo + 1, n - 1, m, j - 1);
    }
  }

  lemma BinIndex(rs: seq<SalesRecord>, j: int)
    requires 0 <= j < |MonthBins(rs)|
    ensures rs != [] && MonthIndex(MonthBins(rs)[j]) == FirstMonth(rs) + j
  {
    MonthsAt(FirstMonth(rs), MonthSpan(rs), j);
    MonthIndexRoundTrip(MonthBins(rs)[j], FirstMonth(rs) + j);
  }

  /** The month rows are strictly chronological and without gaps. */
  lemma MonthBinsChronological(rs: seq<SalesRecord>)
    ensures forall i, j :: 0 <= i < j < |MonthBins(rs)| ==> Before(MonthBins(rs)[i], MonthBins(rs)[j])
    ensures forall j :: 0 <= j < |MonthBins(rs)| - 1 ==>
              MonthIndex(MonthBins(rs)[j + 1]) == MonthIndex(MonthBins(rs)[j]) + 1
  {
    var bins := MonthBins(rs);
    forall i, j | 0 <= i < j < |bins| ensures Before(bins[i], bins[j]) {
      BinIndex(rs, i);
      BinIndex(rs, j);
      MonthIndexOrder(bins[i], bins[j]);
    }
    forall j | 0 <= j < |bins| - 1 ensures MonthIndex(bins[j + 1]) == MonthIndex(bins[j]) + 1 {
      BinIndex(rs, j);
      BinIndex(rs, j + 1);
    }
  }

  /** The month rows run from the earliest purchase's month to the latest
      one's, so every purchase month has its row. */
  lemma MonthBinsCover(rs: seq<SalesRecord>)
    ensures |MonthBins(rs)| == MonthSpan(rs)
    ensures rs != [] ==> MonthIndex(MonthBins(rs)[0]) == FirstMonth(rs)
    ensures rs != [] ==> MonthIndex(MonthBins(rs)[|MonthBins(rs)| - 1]) == LastMonth(rs)
    ensures forall r :: r in rs ==> PurchaseMonth(r) in MonthBins(rs)
  {
    if rs != [] {
      var lo, n := FirstMonth(rs), MonthSpan(rs);
      var bins := Months(lo, n);
      assert MonthBins(rs) == bins;
      MonthsAt(lo, n, 0);
      MonthIndexRoundTrip(bins[0], lo);
      MonthsAt(lo, n, n - 1);
      MonthIndexRoundTrip(bins[n - 1], lo + n - 1);
      forall r | r in rs ensures PurchaseMonth(r) in bins {
        var j := MonthOf(r) - lo;
        MonthsAt(lo, n, j);
        MonthIndexRoundTrip(PurchaseMonth(r), lo + j);
      }
    }
  }

  /** Each month row's value is the measure of the purchases of that month. */
  lemma MonthlyValuesExact(rs: seq<SalesRecord>, m: Measure)
    ensures |MonthlyValues(rs, m)| == |MonthBins(rs)|
    ensures forall j :: 0 <= j < |MonthBins(rs)| ==>
              MonthlyValues(rs, m)[j] == InMonth(rs, MonthIndex(MonthBins(rs)[j]), m)
  {
    if rs != [] {
      var lo, n := FirstMonth(rs), MonthSpan(rs);
      var bins, vs := Months(lo, n), Spread(rs, lo, n, m);
      assert MonthBins(rs) == bins && MonthlyValues(rs, m) == vs;
      forall j | 0 <= j < n ensures vs[j] == InMonth(rs, MonthIndex(bins[j]), m) {
        MonthsAt(lo, n, j);
        MonthIndexRoundTrip(bins[j], lo + j);
        SpreadAt(rs, lo, n, m, j);
      }
    }
  }

  /** A month in which nothing was bought still gets a row, with measure 0. */
  lemma {:induction false} InMonthAbsent(rs: seq<SalesRecord>, i: int, m: Measure)
    requires forall r :: r in rs ==> MonthOf(r) != i
    ensures InMonth(rs, i, m) == 0
  {
    if rs != [] {
      InMonthAbsent(rs[1..], i, m);
    }
  }

  lemma {:induction false} SpreadOfNothing(lo: int, n: nat, m: Measure)
    decreases n
    ensures Sum(Spread([], lo, n, m)) == 0
  {
    if n > 0 {
      SpreadOfNothing(lo + 1, n - 1, m);
      assert ([InMonth([], lo, m)] + Spread([], lo + 1, n - 1, m))[1..] == Spread([], lo + 1, n - 1, m);
    }
  }

  /** The first record adds its weight to exactly the row of its month. */
  lemma {:induction false} SpreadCons(rs: seq<SalesRecord>, lo: int, n: nat, m: Measure)
    requires rs != []
    decreases n
    ensures Sum(Spread(rs, lo, n, m)) ==
            Sum(Spread(rs[1..], lo, n, m)) + (if lo <= MonthOf(rs[0]) < lo + n then Weight(rs[0], m) else 0)
  {
    if n > 0 {
      SpreadCons(rs, lo + 1, n - 1, m);
      var a := Spread(rs, lo + 1, n - 1, m);
      var b := Spread(rs[1..], lo + 1, n - 1, m);
      assert ([InMonth(rs, lo, m)] + a)[1..] == a;
      assert ([InMonth(rs[1..], lo, m)] + b)[1..] == b;
    }
  }

  /** When every purchase falls in the `n` months from `lo`, the rows of those
      months add up to the records' total. */
  lemma {:induction false} SpreadConserves(rs: seq<SalesRecord>, lo: int, n: nat, m: Measure)
    requires forall r :: r in rs ==> lo <= MonthOf(r) < lo + n
    ensures Sum(Spread(rs, lo, n, m)) == MeasureTotal(rs, m)
  {
    if rs == [] {
      SpreadOfNothing(lo, n, m);
    } else {
      assert forall r :: r in rs[1..] ==> r in rs;
      SpreadConserves(rs[1..], lo, n, m);
      SpreadCons(rs, lo, n, m);
    }
  }

  /** The month rows conserve the measure: revenues add up to the total
      'Preço', counts to the number of records. */
  lemma MonthlyConserves(rs: seq<SalesRecord>, m: Measure)
    ensures Sum(MonthlyValues(rs, m)) == MeasureTotal(rs, m)
  {
    if rs != [] {
      SpreadConserves(rs, FirstMonth(rs), MonthSpan(rs), m);
    }
  }

  /** Purchases in January 2022, February 2022 and January 2023 give
      thirteen month rows, not three: January 2022 and January 2023 stay
      apart, and the months in between get rows of their own with value 0. */
  lemma ExampleSpan(a: SalesRecord, b: SalesRecord, c: SalesRecord)
    requires MonthOf(a) == 2022 * 12 && MonthOf(b) == 2022 * 12 + 1 && MonthOf(c) == 2022 * 12 + 12
    ensures FirstMonth([a, b, c]) == 2022 * 12 && LastMonth([a, b, c]) == 2022 * 12 + 12
  {
  }

  lemma GrouperEmitsEveryMonth(a: SalesRecord, b: SalesRecord, c: SalesRecord, m: Measure)
    requires PurchaseMonth(a) == YearMonth(2022, 1)
    requires PurchaseMonth(b) == YearMonth(2022, 2)
    requires PurchaseMonth(c) == YearMonth(2023, 1)
    ensures |MonthBins([a, b, c])| == 13
    ensures MonthBins([a, b, c])[0] == YearMonth(2022, 1)
    ensures MonthBins([a, b, c])[1] == YearMonth(2022, 2)
    ensures MonthBins([a, b, c])[12] == YearMonth(2023, 1)
    ensures forall j :: 2 <= j < 12 ==> MonthlyValues([a, b, c], m)[j] == 0
  {
    ExampleBins(a, b, c);
    forall j | 2 <= j < 12 ensures MonthlyValues([a, b, c], m)[j] == 0 {
      ExampleGap(a, b, c, m, j);
    }
  }

  lemma ExampleBins(a: SalesRecord, b: SalesRecord, c: SalesRecord)
    requires PurchaseMonth(a) == YearMonth(2022, 1)
    requires PurchaseMonth(b) == YearMonth(2022, 2)
    requires PurchaseMonth(c) == YearMonth(2023, 1)
    ensures MonthOf(a) == 2022 * 12 && MonthOf(b) == 2022 * 12 + 1 && MonthOf(c) == 2022 * 12 + 12
    ensures |MonthBins([a, b, c])| == 13
    ensures MonthBins([a, b, c])[0] == YearMonth(2022, 1)
    ensures MonthBins([a, b, c])[1] == YearMonth(2022, 2)
    ensures MonthBins([a, b, c])[12] == YearMonth(2023, 1)
  {
    var rs := [a, b, c];
    var lo := 2022 * 12;
    ExampleSpan(a, b, c);
    var bins := Months(lo, 13);
    assert MonthBins(rs) == bins;
    MonthsAt(lo, 13, 0);
    MonthsAt(lo, 13, 1);
    MonthsAt(lo, 13, 12);
    MonthIndexRoundTrip(YearMonth(2022, 1), lo);
    MonthIndexRoundTrip(YearMonth(2022, 2), lo + 1);
    MonthIndexRoundTrip(YearMonth(2023, 1), lo + 12);
  }

  lemma ExampleGap(a: SalesRecord, b: SalesRecord, c: SalesRecord, m: Measure, j: int)
    requires MonthOf(a) == 2022 * 12 && MonthOf(b) == 2022 * 12 + 1 && MonthOf(c) == 2022 * 12 + 12
    requires 2 <= j < 12
    ensures MonthlyValues([a, b, c], m)[j] == 0
  {
    var rs, lo := [a, b, c], 2022 * 12;
    ExampleSpan(a, b, c);
    assert MonthlyValues(rs, m) == Spread(rs, lo, 13, m);
    SpreadAt(rs, lo, 13, m, j);
    InMonthAbsent(rs, lo + j, m);
  }

  /** English month names, as `Series.dt.month_name()` gives them. */
  const MonthNames: seq<string> := ["January", "February", "March", "April", "May", "June",
    "July", "August", "September", "October", "November", "December"]

  function MonthName(month: Month): string
  {
    MonthNames[month - 1]
  }

  /** `.dt.year` over the month column. */
  function YearColumn(bins: seq<YearMonth>): (ys: seq<int>)
    ensures |ys| == |bins|
  {
    seq(|bins|, i requires 0 <= i < |bins| => bins[i].year)
  }

  /** `.dt.month_name()` over the month column. */
  function MonthNameColumn(bins: seq<YearMonth>): (ns: seq<string>)
    ensures |ns| == |bins|
  {
    seq(|bins|, i requires 0 <= i < |bins| => MonthName(bins[i].month))
  }

  /** The same month of different years keeps distinct rows: no two rows carry
      the same 'Ano' and 'Mês'. */
  lemma CalendarLabelsDistinct(rs: seq<SalesRecord>)
    ensures forall i, j :: 0 <= i < j < |MonthBins(rs)| ==>
              YearColumn(MonthBins(rs))[i] != YearColumn(MonthBins(rs))[j] ||
              MonthNameColumn(MonthBins(rs))[i] != MonthNameColumn(MonthBins(rs))[j]
  {
    MonthBinsChronological(rs);
    var bins := MonthBins(rs);
    forall i, j | 0 <= i < j < |bins|
      ensures YearColumn(bins)[i] != YearColumn(bins)[j] || MonthNameColumn(bins)[i] != MonthNameColumn(bins)[j]
    {
      assert Before(bins[i], bins[j]);
      if bins[i].year == bins[j].year {
        assert bins[i].month != bins[j].month;
        assert MonthName(bins[i].month) != MonthName(bins[j].month);
      }
    }
  }

  /** A month table DataFrame: 'Data da Compra' and 'Preço' from the grouper,
      then the 'Ano' and 'Mês' columns assigned in place (absent until then). */
  class MonthlyTable {
    var purchaseMonth: seq<YearMonth>
    var measure: seq<int>
    var year: Option<seq<int>>
    var monthName: Option<seq<string>>

    /** `dados.set_index('Data da Compra').groupby(pd.Grouper(freq='M'))['Preço']
        .sum()` (or `.count()`) followed by `reset_index()`. */
    constructor Group(rs: seq<SalesRecord>, m: Measure)
      ensures purchaseMonth == MonthBins(rs) && measure == MonthlyValues(rs, m)
      ensures year == None && monthName == None
    {
      purchaseMonth := MonthBins(rs);
      measure := MonthlyValues(rs, m);
      year := None;
      monthName := None;
    }

    /** `tabela['Ano'] = tabela['Data da Compra'].dt.year`. */
    method AssignYear()
      modifies this
      ensures year == Some(YearColumn(purchaseMonth))
      ensures purchaseMonth == old(purchaseMonth) && measure == old(measure) && monthName == old(monthName)
    {
      year := Some(YearColumn(purchaseMonth));
    }

    /** `tabela['Mês'] = tabela['Data da Compra'].dt.month_name()`. */
    method AssignMonthName()
      modifies this
      ensures monthName == Some(MonthNameColumn(purchaseMonth))
      ensures purchaseMonth == old(purchaseMonth) && measure == old(measure) && year == old(year)
    {
      monthName := Some(MonthNameColumn(purchaseMonth));
    }
  }

  /** Lines 81-83 (Revenue) and 95-97 (Sales): the month table with its
      calendar columns. */
  method BuildMonthlyTable(rs: seq<SalesRecord>, m: Measure) returns (t: MonthlyTable)
    ensures fresh(t)
    ensures t.purchaseMonth == MonthBins(rs) && t.measure == MonthlyValues(rs, m)
    ensures t.year == Some(YearColumn(MonthBins(rs)))
    ensures t.monthName == Some(MonthNameColumn(MonthBins(rs)))
  {
    t := new MonthlyTable.Group(rs, m);
    t.AssignYear();
    t.AssignMonthName();
  }
}
