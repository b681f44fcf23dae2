/**
 * One sales transaction as the dashboard sees it after the API response has
 * been decoded and 'Data da Compra' parsed: seller ('Vendedor'), purchase
 * location ('Local da compra') with its coordinates ('lat', 'lon'), product
 * category ('Categoria do Produto'), price ('Preço', in whole cents) and the
 * purchase date.
 */
module Records {
  type Month = m: int | 1 <= m <= 12 witness 1
  type Day = d: int | 1 <= d <= 31 witness 1

  datatype Date = Date(year: int, month: Month, day: Day)

  datatype SalesRecord = SalesRecord(
    seller: string,
    location: string,
    lat: real,
    lon: real,
    category: string,
    price: int,
    date: Date)

  /** The two measures every table reports: 'Preço' summed (revenue, 'receita')
      or 'Preço' counted (number of sales, 'vendas'). */
  datatype Measure = Revenue | Sales

  /** What one record contributes to a measure. */
  function Weight(r: SalesRecord, m: Measure): int
  {
    match m
    case Revenue => r.price
    case Sales => 1
  }

  /** `dados['Preço'].sum()` for Revenue, `dados.shape[0]` for Sales. */
  function MeasureTotal(rs: seq<SalesRecord>, m: Measure): int
  {
    if rs == [] then 0 else Weight(rs[0], m) + MeasureTotal(rs[1..], m)
  }

  /** Counting the sales of a record list gives its length. */
  lemma {:induction false} SalesTotalIsLength(rs: seq<SalesRecord>)
    ensures MeasureTotal(rs, Sales) == |rs|
  {
    if rs != [] {
      SalesTotalIsLength(rs[1..]);
    }
  }
}
