/**
 * Exact decimal money as used by the billing application.
 *
 * Every BigDecimal amount of the application is stored with scale 2, so an
 * amount is modelled as an integer number of hundredths (paise / cents), and
 * a GST rate, also of scale 2, as an integer number of hundredths of a
 * percent (18.00 % is 1800).  The only rounding the application performs is
 * BigDecimal.divide(.., 2, RoundingMode.HALF_UP), which rounds to the
 * nearest integer number of hundredths and sends ties away from zero.
 */
module Money {

  import opened Arith

  /** Hundredths of a currency unit. */
  type Cents = int

  /** Hundredths of a percent. */
  type BasisRate = int

  /** BigDecimal HALF_UP division of n by d, as an integer quotient. */
  function RoundHalfUp(n: int, d: int): int
    requires d > 0
  {
    if n >= 0 then (2 * n + d) / (2 * d) else -((2 * -n + d) / (2 * d))
  }

  /** Taxable value of a line: unit price times quantity, no rounding. */
  function Taxable(unitPrice: Cents, quantity: int): Cents
  {
    Mul(unitPrice, quantity)
  }

  /**
   * GST of a line: taxable * rate / 100 with scale 2, HALF_UP.  With the
   * taxable value in hundredths and the rate in hundredths of a percent the
   * exact tax is taxable * rate / 10000 hundredths.
   */
  function LineGst(taxable: Cents, rate: BasisRate): Cents
  {
    RoundHalfUp(Mul(taxable, rate), 10000)
  }

  /** gstAmount.divide(2, 2, HALF_UP): one of the two CGST / SGST shares. */
  function HalfShare(gst: Cents): Cents
  {
    RoundHalfUp(gst, 2)
  }

  /**
   * HALF_UP rounds to the nearest integer: for a non-negative numerator the
   * result r satisfies r - 1/2 <= n/d < r + 1/2, and for a negative one
   * r - 1/2 < n/d <= r + 1/2 (ties go away from zero).
   */
  lemma {:induction false} RoundHalfUpNearest(n: int, d: int)
    requires d > 0
    ensures var r := RoundHalfUp(n, d);
            n >= 0 ==> 2 * d * r - d <= 2 * n < 2 * d * r + d
    ensures var r := RoundHalfUp(n, d);
            n < 0 ==> 2 * d * r - d < 2 * n <= 2 * d * r + d
  {
    if n >= 0 {
      QuotientBounds(2 * n + d, 2 * d);
    } else {
      QuotientBounds(2 * -n + d, 2 * d);
    }
  }

  /** The nearest-integer condition determines the HALF_UP result (converse of RoundHalfUpNearest). */
  lemma {:induction false} RoundHalfUpUnique(n: int, d: int, r: int)
    requires d > 0
    requires n >= 0 ==> 2 * d * r - d <= 2 * n < 2 * d * r + d
    requires n < 0 ==> 2 * d * r - d < 2 * n <= 2 * d * r + d
    ensures RoundHalfUp(n, d) == r
  {
    RoundHalfUpNearest(n, d);
    var s := RoundHalfUp(n, d);
    // both r and s lie within half a unit of n/d
    MultiplesApart(2 * d, r, s);
    MultiplesApart(2 * d, s, r);
  }

  /** HALF_UP rounding of a non-negative value is non-negative. */
  lemma {:induction false} RoundHalfUpNonNegative(n: int, d: int)
    requires d > 0 && n >= 0
    ensures RoundHalfUp(n, d) >= 0
  {
    QuotientBounds(2 * n + d, 2 * d);
  }

  /**
   * The GST of a line is within half a hundredth (0.005) of the exact
   * taxable * rate / 100, and is non-negative for a non-negative taxable
   * value and rate, so that the line total is never below the taxable value.
   */
  lemma {:induction false} LineGstError(taxable: Cents, rate: BasisRate)
    ensures var g := LineGst(taxable, rate);
            -10000 <= 2 * (10000 * g - taxable * rate) <= 10000
    ensures taxable >= 0 && rate >= 0 ==> LineGst(taxable, rate) >= 0
    ensures taxable >= 0 && rate >= 0 ==> taxable + LineGst(taxable, rate) >= taxable
  {
    MulIsProduct(taxable, rate);
    RoundHalfUpNearest(taxable * rate, 10000);
    if taxable >= 0 && rate >= 0 {
      assert taxable * rate >= 0;
      RoundHalfUpNonNegative(taxable * rate, 10000);
    }
  }

  /**
   * CGST and SGST are the same HALF_UP half of the rate's GST, so for a
   * non-negative GST their sum exceeds it by exactly the parity of the GST
   * in hundredths: 0 when even, one hundredth (0.01) when odd.  For any sign
   * the two shares never differ from the GST by more than one hundredth.
   */
  lemma {:induction false} HalfShareSplit(gst: Cents)
    ensures gst >= 0 ==> 2 * HalfShare(gst) - gst == gst % 2
    ensures -1 <= 2 * HalfShare(gst) - gst <= 1
  {
    RoundHalfUpNearest(gst, 2);
  }
}
