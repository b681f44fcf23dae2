/**
 * The request parameters Dashboard.py sends to the products endpoint, built
 * from the sidebar's region choice, the "whole period" checkbox and the year
 * slider.
 */
module Query {
  /** The region choices offered by the sidebar, spelled as in the source. */
  const Regions: seq<string> := ["Brasil", "Centro-Oeste", "Nordeste", "Norte", "Sudesde", "Sul"]

  const FirstYear := 2020
  const LastYear := 2023

  /** The 'ano' parameter: empty (all years) or one year. */
  datatype YearParam = AllYears | InYear(year: int)

  /** The query string `{'regiao': ..., 'ano': ...}`. */
  datatype QueryString = QueryString(regiao: string, ano: YearParam)

  predicate IsUpper(ch: char)
  {
    'A' <= ch <= 'Z'
  }

  function LowerChar(ch: char): char
  {
    if IsUpper(ch) then (ch as int - 'A' as int + 'a' as int) as char else ch
  }

  /** `str.lower()` restricted to ASCII letters, which is all the region
      names contain. */
  function ToLower(s: string): (r: string)
    ensures |r| == |s|
    ensures forall i :: 0 <= i < |s| ==> r[i] == LowerChar(s[i])
  {
    if s == [] then [] else [LowerChar(s[0])] + ToLower(s[1..])
  }

  /** Lines 45-57: 'Brasil' means no region filter, any other region is sent
      lower-cased; a checked "whole period" box means no year filter,
      otherwise the slider's year is sent. */
  function Normalise(regiao: string, todosOsAnos: bool, ano: int): (q: QueryString)
    requires !todosOsAnos ==> FirstYear <= ano <= LastYear
    ensures q.regiao == if regiao == "Brasil" then "" else ToLower(regiao)
    ensures q.ano.AllYears? <==> todosOsAnos
    ensures q.ano.InYear? ==> q.ano.year == ano && FirstYear <= q.ano.year <= LastYear
  {
    var r := if regiao == "Brasil" then "" else regiao;
    QueryString(ToLower(r), if todosOsAnos then AllYears else InYear(ano))
  }

  /** Lower-casing twice is lower-casing once. */
  lemma ToLowerIdempotent(s: string)
    ensures ToLower(ToLower(s)) == ToLower(s)
  {
  }

  /** Among the offered regions, only 'Brasil' leaves the region parameter
      empty, and every other region is sent as a lower-case word. */
  lemma RegionParameter(regiao: string, todosOsAnos: bool, ano: int)
    requires regiao in Regions
    requires !todosOsAnos ==> FirstYear <= ano <= LastYear
    ensures Normalise(regiao, todosOsAnos, ano).regiao == "" <==> regiao == "Brasil"
    ensures forall i :: 0 <= i < |Normalise(regiao, todosOsAnos, ano).regiao| ==>
              !IsUpper(Normalise(regiao, todosOsAnos, ano).regiao[i])
  {
  }
}
