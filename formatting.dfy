/**
 * The two display formatters of Dashboard.py. The `:.2f` rendering of a
 * number is not modelled: both formatters take it as the parameter `fixed2`.
 */
module Formatting {
  import opened Wrappers

  /** The unit labels `formata_numero` walks through, in order:
      units, thousands ('mil') and millions ('milhões'). */
  const Tiers: seq<string> := ["", "mil", "milh\U{F5}es"]

  /** The tier choice of `formata_numero` over the labels still ahead of it:
      the value and label it formats, or None once the labels run out. */
  function Scale(v: real, tiers: seq<string>): (r: Option<(real, string)>)
    ensures r.Some? ==> r.value.0 < 1000.0 && r.value.1 in tiers
    ensures r.None? ==> tiers == [] || 1000.0 <= v
    decreases |tiers|
  {
    if tiers == [] then None
    else if v < 1000.0 then Some((v, tiers[0]))
    else Scale(v / 1000.0, tiers[1..])
  }

  /** The factor a tier's label stands for. */
  function TierFactor(unit: string): real
  {
    if unit == Tiers[1] then 1000.0
    else if unit == Tiers[2] then 1000000.0
    else 1.0
  }

  /** `formata_numero_v2`: the prefix, a space and the two-decimal rendering of
      the value itself, never scaled. */
  function FormatPlain(valor: real, prefixo: string, fixed2: real -> string): (s: string)
    ensures |s| == |prefixo| + 1 + |fixed2(valor)|
    ensures s[..|prefixo|] == prefixo && s[|prefixo|] == ' '
    ensures s[|prefixo| + 1..] == fixed2(valor)
  {
    prefixo + " " + fixed2(valor)
  }

  /** What `formata_numero` returns: the plain rendering of the scaled value
      followed by a space and the tier's label, or None past the last tier. */
  function Formatted(valor: real, prefixo: string, fixed2: real -> string): (r: Option<string>)
    ensures r.Some? <==> Scale(valor, Tiers).Some?
    ensures r.Some? ==> |r.value| > |prefixo| && r.value[..|prefixo|] == prefixo && r.value[|prefixo|] == ' '
  {
    match Scale(valor, Tiers)
    case None => None
    case Some(p) => Some(FormatPlain(p.0, prefixo, fixed2) + " " + p.1)
  }

  /** `formata_numero`: divides by 1000 per tier until the value is below 1000
      and renders it with that tier's label; falls off the loop (None) when the
      three tiers are exhausted. */
  method FormatNumber(valor: real, prefixo: string, fixed2: real -> string) returns (r: Option<string>)
    ensures r == Formatted(valor, prefixo, fixed2)
  {
    var v := valor;
    for i := 0 to |Tiers|
      invariant Scale(v, Tiers[i..]) == Scale(valor, Tiers)
    {
      if v < 1000.0 {
        return Some(prefixo + " " + fixed2(v) + " " + Tiers[i]);
      }
      v := v / 1000.0;
    }
    return None;
  }

  /** The tier is chosen by the value's size: below 1000 the value itself with
      no label, below a million the thousands, below a billion the millions,
      and nothing from a billion on. */
  lemma ScaleTiers(v: real)
    ensures v < 1000.0 ==> Scale(v, Tiers) == Some((v, ""))
    ensures 1000.0 <= v < 1000000.0 ==> Scale(v, Tiers) == Some((v / 1000.0, "mil"))
    ensures 1000000.0 <= v < 1000000000.0 ==> Scale(v, Tiers) == Some((v / 1000000.0, Tiers[2]))
    ensures 1000000000.0 <= v ==> Scale(v, Tiers) == None
  {
  }

  /** Whatever `formata_numero` formats is below 1000, is at least 1 when a
      label was attached, and times its label's factor gives back the input. */
  lemma ScaleInverse(v: real)
    requires Scale(v, Tiers).Some?
    ensures var (w, unit) := Scale(v, Tiers).value;
            w < 1000.0 && (unit != "" ==> 1.0 <= w) && w * TierFactor(unit) == v
  {
  }
}
