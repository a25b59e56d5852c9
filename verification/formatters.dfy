/**
  The price card's display formatters. The digits themselves (`Intl.NumberFormat`,
  `toFixed(2)`) are abstracted away: a formatter decides WHICH rendering applies
  (not available, plain dollars, or a value scaled to a suffix tier) and carries
  the unrounded amount whose digits are then printed in it.
 */
module Formatters {

  const Million: real := 1000000.0
  const Billion: real := 1000000000.0
  const Trillion: real := 1000000000000.0

  /** The abbreviation suffixes, smallest first. */
  datatype Suffix = M | B | T

  function Scale(s: Suffix): real {
    match s
    case M => Million
    case B => Billion
    case T => Trillion
  }

  /**
    A rendered amount: "N/A", a currency-formatted number, or
    `$<mantissa><suffix>` where the mantissa is the value divided by the
    suffix's scale.
   */
  datatype Display = NotAvailable | Dollars(amount: real) | Abbreviated(mantissa: real, suffix: Suffix)

  predicate HasSuffix(d: Display, s: Suffix) {
    d.Abbreviated? && d.suffix == s
  }

  /** The dollar value a display stands for, before any rounding of digits. */
  function Denotes(d: Display): real {
    match d
    case NotAvailable => 0.0
    case Dollars(a) => a
    case Abbreviated(m, s) => m * Scale(s)
  }

  /** `formatPrice`: a falsy (zero) price shows "N/A", any other is shown as currency. */
  function FormatPrice(price: real): (r: Display)
    ensures r.NotAvailable? <==> price == 0.0
    ensures !r.Abbreviated?
    ensures Denotes(r) == price
  {
    if price == 0.0 then NotAvailable else Dollars(price)
  }

  /** `formatMarketCap`: the ladder T, B, M, then the price formatter. */
  function FormatMarketCap(marketCap: real): (r: Display)
    ensures r.NotAvailable? <==> marketCap == 0.0
    ensures HasSuffix(r, T) <==> marketCap >= Trillion
    ensures HasSuffix(r, B) <==> Billion <= marketCap < Trillion
    ensures HasSuffix(r, M) <==> Million <= marketCap < Billion
    ensures r.Dollars? <==> marketCap != 0.0 && marketCap < Million
    ensures Denotes(r) == marketCap
    ensures r.Abbreviated? ==> 1.0 <= r.mantissa
    ensures r.Abbreviated? && r.suffix != T ==> r.mantissa < 1000.0
  {
    if marketCap == 0.0 then NotAvailable
    else if marketCap >= Trillion then Abbreviated(marketCap / Trillion, T)
    else if marketCap >= Billion then Abbreviated(marketCap / Billion, B)
    else if marketCap >= Million then Abbreviated(marketCap / Million, M)
    else FormatPrice(marketCap)
  }

  /** `formatVolume`: the same ladder without the T rung. */
  function FormatVolume(volume: real): (r: Display)
    ensures r.NotAvailable? <==> volume == 0.0
    ensures !HasSuffix(r, T)
    ensures HasSuffix(r, B) <==> volume >= Billion
    ensures HasSuffix(r, M) <==> Million <= volume < Billion
    ensures r.Dollars? <==> volume != 0.0 && volume < Million
    ensures Denotes(r) == volume
    ensures r.Abbreviated? ==> 1.0 <= r.mantissa
    ensures HasSuffix(r, M) ==> r.mantissa < 1000.0
  {
    if volume == 0.0 then NotAvailable
    else if volume >= Billion then Abbreviated(volume / Billion, B)
    else if volume >= Million then Abbreviated(volume / Million, M)
    else FormatPrice(volume)
  }

  /**
    Volume and market cap agree below a trillion; from a trillion on, market cap
    says T and volume keeps counting in billions, a thousand times the mantissa.
   */
  lemma VolumeAgreesWithMarketCapBelowTrillion(v: real)
    ensures v < Trillion ==> FormatVolume(v) == FormatMarketCap(v)
    ensures v >= Trillion ==>
      && HasSuffix(FormatMarketCap(v), T)
      && HasSuffix(FormatVolume(v), B)
      && FormatVolume(v).mantissa == 1000.0 * FormatMarketCap(v).mantissa
  {
  }

  /** The up/down glyph of the 24h change. */
  datatype Arrow = Up | Down

  /** The 24h change as shown: a glyph and an absolute value (printed with two decimals and "%"). */
  datatype ChangeDisplay = ChangeDisplay(arrow: Arrow, magnitude: real)

  /** The arrow is chosen by sign (zero counts as up) and the magnitude is `Math.abs(change)`. */
  function FormatChange(change: real): (r: ChangeDisplay)
    ensures r.arrow == Up <==> change >= 0.0
    ensures r.magnitude >= 0.0
    ensures r.magnitude == change || r.magnitude == -change
  {
    var magnitude := if change < 0.0 then -change else change;
    ChangeDisplay(if change >= 0.0 then Up else Down, magnitude)
  }

  /** Reads a displayed change back as a signed percentage. */
  function Signed(d: ChangeDisplay): real {
    match d.arrow
    case Up => d.magnitude
    case Down => -d.magnitude
  }

  /** Arrow and unrounded magnitude together lose nothing: the signed change is recovered. */
  lemma ChangeRoundTrip(change: real)
    ensures Signed(FormatChange(change)) == change
  {
  }

  /** A zero change shows an up arrow with magnitude zero ("▲ 0.00%"). */
  lemma ZeroChangeShowsUp()
    ensures FormatChange(0.0) == ChangeDisplay(Up, 0.0)
  {
  }

  /** Worked examples: market caps of 1.5e12 and 2.3e9, and a volume of 2.3e12 that stays in billions. */
  lemma MarketCapExamples()
    ensures FormatMarketCap(1500000000000.0) == Abbreviated(1.5, T)
    ensures FormatMarketCap(2300000000.0) == Abbreviated(2.3, B)
    ensures FormatVolume(2300000000000.0) == Abbreviated(2300.0, B)
  {
  }
}
