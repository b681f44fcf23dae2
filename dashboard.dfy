/**
 * One top-to-bottom pass of the Dashboard.py script: the request parameters,
 * the seller filter applied to the fetched records, every aggregate table,
 * the top-N views and the headline metrics. The HTTP request itself is not
 * modelled: the records it returns are an input.
 */
module Dashboard {
  import opened Wrappers
  import opened Records
  import opened Formatting
  import opened Query
  import opened SellerFilter
  import opened Grouping
  import opened Tables
  import opened Monthly

  /** Everything the pass computes except the two month tables. */
  datatype Report = Report(
    query: QueryString,
    dados: seq<SalesRecord>,
    revenueByLocation: seq<Summary>,
    salesByLocation: seq<Summary>,
    revenueByCategory: seq<Summary>,
    salesByCategory: seq<Summary>,
    sellers: seq<Summary>,
    topLocationsByRevenue: seq<Summary>,
    topLocationsBySales: seq<Summary>,
    topSellersByRevenue: seq<Summary>,
    topSellersBySales: seq<Summary>,
    revenueMetric: Option<string>,
    salesMetric: Option<string>)

  /** `dados['Preço'].sum()` in reais (prices are held in cents). */
  function RevenueInReais(rs: seq<SalesRecord>): (r: real)
    ensures r * 100.0 == MeasureTotal(rs, Revenue) as real
  {
    MeasureTotal(rs, Revenue) as real / 100.0
  }

  /** The script's pass. `regiao`, `todosOsAnos`, `ano`, `chosenSellers` and
      `qtdVendedores` are the sidebar and tab widgets' values, `fetched` the
      records the endpoint returned for the query, `fixed2` the `:.2f`
      rendering. */
  method Recompute(regiao: string, todosOsAnos: bool, ano: int, fetched: seq<SalesRecord>,
                   chosenSellers: seq<string>, qtdVendedores: nat, fixed2: real -> string)
    returns (report: Report, monthlyRevenue: MonthlyTable, monthlySales: MonthlyTable)
    requires !todosOsAnos ==> FirstYear <= ano <= LastYear
    requires MinTopSellers <= qtdVendedores <= MaxTopSellers
    ensures report.query == Normalise(regiao, todosOsAnos, ano)
    ensures report.dados == FilterBySellers(fetched, chosenSellers)
    ensures report.revenueByLocation == LocationRevenue(report.dados)
    ensures report.salesByLocation == LocationSales(report.dados)
    ensures report.revenueByCategory == CategoryRevenue(report.dados)
    ensures report.salesByCategory == CategorySales(report.dados)
    ensures report.sellers == SellerTable(report.dados)
    ensures report.topLocationsByRevenue == TopLocations(report.dados, Revenue)
    ensures report.topLocationsBySales == TopLocations(report.dados, Sales)
    ensures report.topSellersByRevenue == TopSellers(report.dados, Revenue, qtdVendedores)
    ensures report.topSellersBySales == TopSellers(report.dados, Sales, qtdVendedores)
    ensures report.revenueMetric == Formatted(RevenueInReais(report.dados), "R$", fixed2)
    ensures report.salesMetric == Formatted(|report.dados| as real, "", fixed2)
    ensures fresh(monthlyRevenue) && fresh(monthlySales) && monthlyRevenue != monthlySales
    ensures monthlyRevenue.purchaseMonth == MonthBins(report.dados)
    ensures monthlyRevenue.measure == MonthlyValues(report.dados, Revenue)
    ensures monthlyRevenue.year == Some(YearColumn(MonthBins(report.dados)))
    ensures monthlyRevenue.monthName == Some(MonthNameColumn(MonthBins(report.dados)))
    ensures monthlySales.purchaseMonth == MonthBins(report.dados)
    ensures monthlySales.measure == MonthlyValues(report.dados, Sales)
    ensures monthlySales.year == Some(YearColumn(MonthBins(report.dados)))
    ensures monthlySales.monthName == Some(MonthNameColumn(MonthBins(report.dados)))
  {
    var query := Normalise(regiao, todosOsAnos, ano);
    var dados := fetched;
    if chosenSellers != [] {
      dados := KeepSellers(dados, chosenSellers);
    }
    monthlyRevenue := BuildMonthlyTable(dados, Revenue);
    monthlySales := BuildMonthlyTable(dados, Sales);
    var revenueMetric := FormatNumber(RevenueInReais(dados), "R$", fixed2);
    var salesMetric := FormatNumber(|dados| as real, "", fixed2);
    report := Report(
      query, dados,
      LocationRevenue(dados), LocationSales(dados),
      CategoryRevenue(dados), CategorySales(dados),
      SellerTable(dados),
      TopLocations(dados, Revenue), TopLocations(dados, Sales),
      TopSellers(dados, Revenue, qtdVendedores), TopSellers(dados, Sales, qtdVendedores),
      revenueMetric, salesMetric);
  }

  /** Every view of the pass agrees on the totals: the revenue tables and the
      month table add up to the revenue metric's amount, the count tables and
      the month table to the number of records the count metric shows. */
  lemma ViewsAgreeOnTotals(rs: seq<SalesRecord>)
    ensures SumOf(LocationRevenue(rs), Revenue) as real / 100.0 == RevenueInReais(rs)
    ensures SumOf(CategoryRevenue(rs), Revenue) as real / 100.0 == RevenueInReais(rs)
    ensures SumOf(SellerTable(rs), Revenue) as real / 100.0 == RevenueInReais(rs)
    ensures Sum(MonthlyValues(rs, Revenue)) as real / 100.0 == RevenueInReais(rs)
    ensures SumOf(LocationSales(rs), Sales) == SumOf(CategorySales(rs), Sales) == SumOf(SellerTable(rs), Sales) == |rs|
    ensures Sum(MonthlyValues(rs, Sales)) == |rs|
  {
    MonthlyConserves(rs, Revenue);
    MonthlyConserves(rs, Sales);
    SalesTotalIsLength(rs);
  }
}
