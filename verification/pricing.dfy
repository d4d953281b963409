/**
 * The storefront's one pricing rule: a buyer whose declared account value is below
 * the package's nominal value pays nothing; otherwise the tier's listed price applies.
 */
module Pricing {
  import opened Catalog

  predicate IsDigits(s: string) {
    forall i :: 0 <= i < |s| ==> '0' <= s[i] <= '9'
  }

  /** parseInt(s, 10) on a non-empty string of decimal digits. */
  function ParseDecimal(s: string): (n: nat)
    requires s != [] && IsDigits(s)
    ensures s[0] != '0' ==> n > 0
  {
    if |s| == 1 then s[0] as int - '0' as int
    else 10 * ParseDecimal(s[..|s| - 1]) + (s[|s| - 1] as int - '0' as int)
  }

  /** parseInt reads each package key as the nominal value in millions. */
  lemma ParseKeys()
    ensures ParseDecimal(Key(P25)) == 25 && ParseDecimal(Key(P50)) == 50
    ensures ParseDecimal(Key(P100)) == 100 && ParseDecimal(Key(P200)) == 200
  {
  }

  /** The package's nominal value in VND: its numeric key times one million. */
  function PkgValue(p: Pkg): (v: int)
    ensures v == match p
                 case P25 => 25_000_000
                 case P50 => 50_000_000
                 case P100 => 100_000_000
                 case P200 => 200_000_000
  {
    ParseKeys();
    ParseDecimal(Key(p)) * 1_000_000
  }

  /** Larger packages have larger nominal values. */
  lemma PkgValueIncreasing()
    ensures PkgValue(P25) < PkgValue(P50) < PkgValue(P100) < PkgValue(P200)
  {
  }

  /**
   * The amount due: the tier's listed price when the declared account value covers
   * the package's nominal value, and zero when it does not.
   */
  function FinalPrice(p: Pkg, accountValue: int, price: int): (r: int)
    ensures accountValue >= PkgValue(p) ==> r == price
    ensures accountValue < PkgValue(p) ==> r == 0
  {
    var isCovered := accountValue >= PkgValue(p);
    if isCovered then price else 0
  }

  /** The amount due is never more than the listed price and never negative. */
  lemma FinalPriceBounded(p: Pkg, accountValue: int, price: int)
    requires price >= 0
    ensures 0 <= FinalPrice(p, accountValue, price) <= price
  {
  }

  /**
   * The rule is a threshold: declaring a larger account value never lowers the amount
   * due, and a package with a higher nominal value never charges where a smaller one waives.
   */
  lemma FinalPriceMonotone(p: Pkg, q: Pkg, a: int, b: int, price: int)
    requires price >= 0 && a <= b && PkgValue(q) <= PkgValue(p)
    ensures FinalPrice(p, a, price) <= FinalPrice(p, b, price)
    ensures FinalPrice(p, a, price) <= FinalPrice(q, a, price)
  {
  }

  /** The worked examples: package "25", tier "early" (199,000 VND). */
  lemma FinalPriceExamples()
    ensures FinalPrice(P25, 10_000_000, 199000) == 0
    ensures FinalPrice(P25, 30_000_000, 199000) == 199000
    ensures FinalPrice(P25, 25_000_000, 199000) == 199000
  {
  }
}
