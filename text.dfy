/**
 * The string operations of the JDK that the application relies on: the decimal
 * form of a non-negative integer (String.valueOf), fixed-width zero-padded
 * digits (as in LocalDate.toString) and String.trim / isEmpty.
 */
module Text {

  import opened Arith

  function Pow10(k: nat): (p: nat)
    ensures p >= 1
  {
    if k == 0 then 1 else 10 * Pow10(k - 1)
  }

  function DigitChar(d: nat): char
    requires d < 10
  {
    "0123456789"[d]
  }

  /** String.valueOf(n) for a non-negative n: no sign, no leading zeros. */
  function DecimalString(n: nat): string
    decreases n
  {
    if n < 10 then [DigitChar(n)] else DecimalString(n / 10) + [DigitChar(n % 10)]
  }

  /** The w low-order decimal digits of n, zero-padded to exactly w characters. */
  function PadDigits(n: nat, w: nat): string
    decreases w
  {
    if w == 0 then [] else PadDigits(n / 10, w - 1) + [DigitChar(n % 10)]
  }

  lemma {:induction false} DigitCharInjective(a: nat, b: nat)
    requires a < 10 && b < 10 && DigitChar(a) == DigitChar(b)
    ensures a == b
  {
  }

  lemma {:induction false} PadDigitsLength(n: nat, w: nat)
    ensures |PadDigits(n, w)| == w
  {
    if w > 0 {
      PadDigitsLength(n / 10, w - 1);
    }
  }

  /** The decimal form of n is longer than k > 0 characters exactly when n >= 10^k. */
  lemma {:induction false} DecimalStringLength(n: nat, k: nat)
    ensures |DecimalString(n)| >= 1
    ensures k > 0 ==> (|DecimalString(n)| > k <==> n >= Pow10(k))
    decreases n
  {
    if n >= 10 {
      DecimalStringLength(n / 10, if k > 0 then k - 1 else 0);
    } else if k > 0 {
      PowerAtLeastTen(k);
    }
  }

  lemma {:induction false} PowerAtLeastTen(k: nat)
    requires k > 0
    ensures Pow10(k) >= 10
  {
    if k > 1 {
      PowerAtLeastTen(k - 1);
    }
  }

  /** Distinct numbers have distinct decimal forms. */
  lemma {:induction false} DecimalStringInjective(a: nat, b: nat)
    requires DecimalString(a) == DecimalString(b)
    ensures a == b
    decreases a
  {
    var s := DecimalString(a);
    DecimalStringLength(a, 1);
    DecimalStringLength(b, 1);
    if a >= 10 {
      assert b >= 10;
      var sa, sb := DecimalString(a / 10), DecimalString(b / 10);
      assert s == sa + [DigitChar(a % 10)] == sb + [DigitChar(b % 10)];
      assert sa == s[..|s| - 1] == sb;
      DigitCharInjective(a % 10, b % 10);
      DecimalStringInjective(a / 10, b / 10);
    } else {
      assert b < 10;
      DigitCharInjective(a, b);
    }
  }

  /** Within the range of w digits, the zero-padded form is injective. */
  lemma {:induction false} PadDigitsInjective(a: nat, b: nat, w: nat)
    requires a < Pow10(w) && b < Pow10(w)
    requires PadDigits(a, w) == PadDigits(b, w)
    ensures a == b
    decreases w
  {
    if w > 0 {
      var s := PadDigits(a, w);
      PadDigitsLength(a / 10, w - 1);
      PadDigitsLength(b / 10, w - 1);
      assert PadDigits(a / 10, w - 1) == s[..w - 1] == PadDigits(b / 10, w - 1);
      DigitCharInjective(a % 10, b % 10);
      PadDigitsInjective(a / 10, b / 10, w - 1);
    }
  }

  /** Splitting n by 10 * p: the quotient and remainder facts used for digit suffixes. */
  lemma {:induction false} ModOfTenTimes(n: nat, p: nat)
    requires p >= 1
    ensures (n % (10 * p)) / 10 == (n / 10) % p
    ensures (n % (10 * p)) % 10 == n % 10
  {
    var q, r := n / (10 * p), n % (10 * p);
    var pq := p * q;
    assert n == (10 * p) * q + r && 0 <= r < 10 * p;
    assert (10 * p) * q == 10 * pq;
    var s, t := r / 10, r % 10;
    assert r == 10 * s + t && 0 <= t < 10;
    assert n == 10 * (pq + s) + t;
    DivModUnique(n, 10, pq + s, t);
    DivModUnique(pq + s, p, q, s);
  }

  /**
   * The last w characters of the decimal form of n are the w low-order
   * digits of n, zero-padded: String.valueOf(n).substring(len - w) is
   * determined by n mod 10^w alone.
   */
  lemma {:induction false} DecimalSuffix(n: nat, w: nat)
    requires |DecimalString(n)| >= w
    ensures DecimalString(n)[|DecimalString(n)| - w..] == PadDigits(n % Pow10(w), w)
    decreases n
  {
    var s := DecimalString(n);
    if w == 0 {
    } else if n < 10 {
      assert w == 1;
      assert n % 10 == n;
    } else {
      var head := DecimalString(n / 10);
      assert s == head + [DigitChar(n % 10)];
      DecimalSuffix(n / 10, w - 1);
      assert s[|s| - w..] == head[|head| - (w - 1)..] + [DigitChar(n % 10)];
      ModOfTenTimes(n, Pow10(w - 1));
    }
  }

  /** String.trim(): strips every leading and trailing character <= U+0020. */
  function Trim(s: string): string
  {
    TrimEnd(TrimStart(s))
  }

  function TrimStart(s: string): string
  {
    if s != [] && s[0] <= ' ' then TrimStart(s[1..]) else s
  }

  function TrimEnd(s: string): string
  {
    if s != [] && s[|s| - 1] <= ' ' then TrimEnd(s[..|s| - 1]) else s
  }

  /** s.trim().isEmpty(): true exactly when every character of s is a space or control character. */
  predicate IsBlank(s: string)
  {
    Trim(s) == []
  }

  lemma {:induction false} TrimStartEmpty(s: string)
    ensures TrimStart(s) == [] <==> forall i :: 0 <= i < |s| ==> s[i] <= ' '
  {
    if s != [] && s[0] <= ' ' {
      TrimStartEmpty(s[1..]);
      assert forall i :: 1 <= i < |s| ==> s[i] == s[1..][i - 1];
    }
  }

  lemma {:induction false} TrimEndEmpty(s: string)
    ensures s == [] ==> TrimEnd(s) == []
    ensures s != [] && s[0] > ' ' ==> TrimEnd(s) != []
  {
    if s != [] && s[|s| - 1] <= ' ' {
      TrimEndEmpty(s[..|s| - 1]);
    }
  }

  /** A string is blank after trimming exactly when it holds no character above U+0020. */
  lemma {:induction false} BlankMeansNoVisibleChar(s: string)
    ensures IsBlank(s) <==> forall i :: 0 <= i < |s| ==> s[i] <= ' '
  {
    TrimStartEmpty(s);
    TrimStartFirst(s);
    TrimEndEmpty(TrimStart(s));
  }

  /** After TrimStart, the string is empty or starts with a character above U+0020. */
  lemma {:induction false} TrimStartFirst(s: string)
    ensures TrimStart(s) != [] ==> TrimStart(s)[0] > ' '
  {
    if s != [] && s[0] <= ' ' {
      TrimStartFirst(s[1..]);
    }
  }
}
