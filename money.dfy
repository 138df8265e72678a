/** The two `formatMilliunits` helpers of the YNAB tools. Both print the
    amount divided by 1000 with two decimals; they differ in where the minus
    sign goes. The decimal rendering (`toFixed(2)` on a double) is kept
    abstract: a `Display` is a prefix followed by the rendering of
    `magnitude / 1000`. */
module Money {

  datatype Display = Display(prefix: string, magnitude: nat)

  function Abs(m: int): nat {
    if m < 0 then -m else m
  }

  /** Reads a display back as a signed amount, given the symbol it was
      printed with and where the sign goes. */
  function ReadBack(d: Display, symbol: string, signFirst: bool): int {
    var negative := if signFirst then "-" + symbol else symbol + "-";
    if d.prefix == negative then -(d.magnitude as int) else d.magnitude
  }

  /** `symbol + (m / 1000).toFixed(2)`: `toFixed` prints the minus sign of a
      negative amount, so it lands after the symbol. */
  function SymbolFirst(m: int, symbol: string): (d: Display)
    ensures d.magnitude == Abs(m)
    ensures |d.prefix| >= |symbol| && d.prefix[..|symbol|] == symbol
    ensures d.prefix[|symbol|..] == "-" <==> m < 0
    ensures ReadBack(d, symbol, false) == m
  {
    if m < 0 then Display(symbol + "-", -m) else Display(symbol, m)
  }

  /** `sign + symbol + |m / 1000|.toFixed(2)` with `sign` "-" for a negative
      amount: the text starts with "-" exactly when the amount is negative
      (for a symbol that does not itself start with "-"). */
  function SignFirst(m: int, symbol: string): (d: Display)
    ensures d.magnitude == Abs(m)
    ensures |d.prefix| >= |symbol| && d.prefix[|d.prefix| - |symbol|..] == symbol
    ensures (|symbol| == 0 || symbol[0] != '-') ==> (|d.prefix| > 0 && d.prefix[0] == '-' <==> m < 0)
    ensures ReadBack(d, symbol, true) == m
  {
    if m < 0 then Display("-" + symbol, -m) else Display(symbol, m)
  }

  /** The two variants agree on the digits and differ only in the order of
      sign and symbol. */
  lemma VariantsAgree(m: int, symbol: string)
    ensures SymbolFirst(m, symbol).magnitude == SignFirst(m, symbol).magnitude
    ensures m < 0 ==> SymbolFirst(m, symbol).prefix == symbol + "-" && SignFirst(m, symbol).prefix == "-" + symbol
    ensures m >= 0 ==> SymbolFirst(m, symbol) == SignFirst(m, symbol)
  {
  }
}
