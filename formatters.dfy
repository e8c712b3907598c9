/**
 * The display formatters of the browser client (public/js/utils.js) and the
 * number rendering they rest on: `Number.prototype.toFixed` and an en-US
 * `toLocaleString`. Every formatter answers "N/A" for null, undefined or a
 * value `isNaN` holds for; otherwise it renders a decimal string, with a
 * prefix, a percent sign or a magnitude suffix depending on the formatter.
 */
module Formatters {
  import opened Common
  import opened Text
  import opened Numeric

  /** What a formatter is given: null or undefined, a value `isNaN` holds for, or a finite number. */
  datatype JsNumber = Nullish | NaN | Finite(x: real)

  const NotAvailable := "N/A"

  // ---- digit strings ----

  /** a followed by k zero digits: a·10^k, one place at a time. */
  function ShiftLeft(a: nat, k: nat): nat {
    if k == 0 then a else 10 * ShiftLeft(a, k - 1)
  }

  lemma {:induction false} ShiftLeftZero(k: nat)
    ensures ShiftLeft(0, k) == 0
  {
    if k > 0 {
      ShiftLeftZero(k - 1);
    }
  }

  /** Appending digits shifts the value of the front part left by their count. */
  lemma {:induction false} DigitsValueConcat(a: string, b: string)
    requires AllDigits(a) && AllDigits(b)
    ensures AllDigits(a + b)
    ensures DigitsValue(a + b) == ShiftLeft(DigitsValue(a), |b|) + DigitsValue(b)
  {
    if |b| == 0 {
      assert a + b == a;
    } else {
      var b' := b[..|b| - 1];
      assert (a + b)[..|a + b| - 1] == a + b';
      DigitsValueConcat(a, b');
    }
  }

  function Zeros(k: nat): (z: string)
    ensures |z| == k && AllDigits(z) && DigitsValue(z) == 0
  {
    if k == 0 then "" else
      var z := Zeros(k - 1) + "0";
      assert z[..k - 1] == Zeros(k - 1);
      z
  }

  /** The digits of n, left-padded with zeros to at least `width` characters; they still denote n. */
  function PaddedDigits(n: nat, width: nat): (s: string)
    ensures |s| >= width && |s| >= 1 && AllDigits(s) && DigitsValue(s) == n
  {
    var digits := ShowNat(n);
    ShowNatDigits(n);
    if |digits| >= width then digits
    else
      DigitsValueConcat(Zeros(width - |digits|), digits);
      ShiftLeftZero(|digits|);
      Zeros(width - |digits|) + digits
  }

  // ---- decimal places ----

  /** y multiplied by 10^k, one decimal place at a time. */
  function Magnify(y: real, k: nat): (r: real)
    ensures y >= 0.0 ==> r >= 0.0
  {
    if k == 0 then y else 10.0 * Magnify(y, k - 1)
  }

  lemma {:induction false} MagnifyIsScale(y: real, k: nat)
    ensures Magnify(y, k) == Scale(y, k)
  {
    if k > 0 {
      MagnifyIsScale(y, k - 1);
      assert Scale(y, k) == y * (10.0 * Pow10(k - 1));
    }
  }

  lemma {:induction false} MagnifyTenth(y: real, k: nat)
    ensures Magnify(y / 10.0, k) == Magnify(y, k) / 10.0
  {
    if k > 0 {
      MagnifyTenth(y, k - 1);
    }
  }

  lemma {:induction false} MagnifyNegate(y: real, k: nat)
    ensures Magnify(-y, k) == -Magnify(y, k)
  {
    if k > 0 {
      MagnifyNegate(y, k - 1);
    }
  }

  /** Moving k places right and back again is the identity. */
  lemma {:induction false} MagnifyShift(a: real, k: nat)
    ensures Magnify(Shift(a, k), k) == a
  {
    if k > 0 {
      MagnifyTenth(Shift(a, k - 1), k - 1);
      MagnifyShift(a, k - 1);
    }
  }

  lemma {:induction false} ShiftAdd(a: real, b: real, k: nat)
    ensures Shift(a + b, k) == Shift(a, k) + Shift(b, k)
  {
    if k > 0 {
      ShiftAdd(a, b, k - 1);
    }
  }

  lemma {:induction false} ShiftTen(a: real, k: nat)
    ensures Shift(10.0 * a, k) == 10.0 * Shift(a, k)
  {
    if k > 0 {
      ShiftTen(a, k - 1);
    }
  }

  lemma {:induction false} ShiftCancel(i: nat, k: nat)
    ensures Shift(ShiftLeft(i, k) as real, k) == i as real
  {
    if k > 0 {
      ShiftTen(ShiftLeft(i, k - 1) as real, k);
      ShiftCancel(i, k - 1);
    }
  }

  /** i·10^k + f over 10^k is i plus f over 10^k. */
  lemma {:induction false} ShiftSplit(i: nat, f: nat, k: nat)
    ensures Shift((ShiftLeft(i, k) + f) as real, k) == i as real + Shift(f as real, k)
  {
    ShiftAdd(ShiftLeft(i, k) as real, f as real, k);
    ShiftCancel(i, k);
  }

  // ---- Number.prototype.toFixed ----

  /**
   * The number of units of 10^-d `toFixed(d)` keeps of |x|: the nearest
   * one, an exact half rounding up (away from zero once the sign is put
   * back).
   */
  function FixedUnits(x: real, d: nat): nat {
    (Magnify(Abs(x), d) + 0.5).Floor
  }

  /** n units of 10^-d. */
  function UnitsValue(n: nat, d: nat): real {
    Shift(n as real, d)
  }

  /** The value `toFixed(d)`'s text denotes: the kept units over 10^d, with the sign of x. */
  function FixedValue(x: real, d: nat): real {
    if x < 0.0 then -UnitsValue(FixedUnits(x, d), d) else UnitsValue(FixedUnits(x, d), d)
  }

  /** Digits and decimal points only. */
  predicate DecimalText(s: string) {
    forall i :: 0 <= i < |s| ==> IsDigit(s[i]) || s[i] == '.'
  }

  /** For d > 0, a '.' followed by exactly d digits ends s. */
  predicate EndsWithDecimals(s: string, d: nat) {
    |s| > d && (d > 0 ==> s[|s| - d - 1] == '.' && AllDigits(s[|s| - d..]))
  }

  /** The unsigned text for n units of 10^-d: the integer digits, then for d > 0 a '.' and exactly d digits. */
  function FixedDigits(n: nat, d: nat): (s: string)
    ensures EndsWithDecimals(s, d) && IsDigit(s[0]) && DecimalText(s)
  {
    var padded := PaddedDigits(n, d + 1);
    if d == 0 then padded
    else
      var split := |padded| - d;
      var s := padded[..split] + "." + padded[split..];
      assert s[|s| - d..] == padded[split..];
      s
  }

  /** The unsigned text reads back as n units of 10^-d. */
  lemma {:induction false} FixedDigitsValue(n: nat, d: nat)
    ensures UnsignedDecimal(FixedDigits(n, d)) == Some(UnitsValue(n, d))
  {
    var padded := PaddedDigits(n, d + 1);
    if d == 0 {
      WholeDigits(FixedDigits(n, d), n);
    } else {
      SplitDecimal(FixedDigits(n, d), padded, d);
    }
  }

  /** Digits alone read as their value. */
  lemma {:induction false} WholeDigits(t: string, n: nat)
    requires |t| > 0 && AllDigits(t) && DigitsValue(t) == n
    ensures UnsignedDecimal(t) == Some(UnitsValue(n, 0))
  {
    AllDigitsHasNoDot(t);
  }

  /** Digits with a '.' put before the last d of them read as their value over 10^d. */
  lemma {:induction false} SplitDecimal(t: string, digits: string, d: nat)
    requires AllDigits(digits) && 0 < d < |digits|
    requires t == digits[..|digits| - d] + "." + digits[|digits| - d..]
    ensures UnsignedDecimal(t) == Some(UnitsValue(DigitsValue(digits), d))
  {
    var ip, fp := digits[..|digits| - d], digits[|digits| - d..];
    assert digits == ip + fp;
    DecimalOfParts(t, ip, fp);
    DigitsValueConcat(ip, fp);
    ShiftSplit(DigitsValue(ip), DigitsValue(fp), d);
  }

  /** Digits, a '.', and digits read as the integer part plus the fraction over 10^|fraction|. */
  lemma {:induction false} DecimalOfParts(t: string, ip: string, fp: string)
    requires AllDigits(ip) && AllDigits(fp) && |fp| > 0
    requires t == ip + "." + fp
    ensures UnsignedDecimal(t) == Some(DigitsValue(ip) as real + Shift(DigitsValue(fp) as real, |fp|))
  {
    AllDigitsHasNoDot(ip);
    assert t == ip + ("." + fp);
    DotIndexAfter(ip, "." + fp);
    assert t[..|ip|] == ip;
    assert t[|ip| + 1..] == fp;
  }

  /** The first '.' of a string whose front part has none is right after that front part. */
  lemma {:induction false} DotIndexAfter(a: string, b: string)
    requires DotIndex(a) == |a| && |b| > 0 && b[0] == '.'
    ensures DotIndex(a + b) == |a|
  {
    if |a| > 0 {
      assert (a + b)[1..] == a[1..] + b;
      DotIndexAfter(a[1..], b);
    } else {
      assert a + b == b;
    }
  }

  /** The unsigned text, with a '-' in front when `negative`. */
  function Signed(negative: bool, digits: string, d: nat): (s: string)
    requires EndsWithDecimals(digits, d)
    ensures s == if negative then "-" + digits else digits
    ensures EndsWithDecimals(s, d) && s[0] == (if negative then '-' else digits[0])
  {
    if negative then
      var s := "-" + digits;
      assert s[|s| - d..] == digits[|digits| - d..];
      s
    else digits
  }

  /** `x.toFixed(d)`: a '-' for a negative x, the integer digits, and for d > 0 a '.' followed by exactly d digits. */
  function ToFixed(x: real, d: nat): (s: string)
    ensures EndsWithDecimals(s, d)
    ensures s[0] == '-' <==> x < 0.0
    ensures x >= 0.0 ==> IsDigit(s[0])
  {
    Signed(x < 0.0, FixedDigits(FixedUnits(x, d), d), d)
  }

  /** What `toFixed` renders reads back, through the decimal parser, as exactly the rounded value. */
  lemma {:induction false} ToFixedRoundTrip(x: real, d: nat)
    ensures ParseDecimal(ToFixed(x, d)) == Some(FixedValue(x, d))
  {
    SignedFixedValue(x < 0.0, FixedUnits(x, d), d);
    assert FixedValue(x, d) == if x < 0.0 then -UnitsValue(FixedUnits(x, d), d) else UnitsValue(FixedUnits(x, d), d);
  }

  /** The signed text for n units of 10^-d parses as that many units, negated when signed. */
  lemma {:induction false} SignedFixedValue(negative: bool, n: nat, d: nat)
    ensures ParseDecimal(Signed(negative, FixedDigits(n, d), d)) == Some(if negative then -UnitsValue(n, d) else UnitsValue(n, d))
  {
    FixedDigitsValue(n, d);
    ParseSigned(negative, FixedDigits(n, d), d, UnitsValue(n, d));
  }

  /** Unsigned text that starts with a digit parses as itself, and after a '-' as its negation. */
  lemma {:induction false} ParseSigned(negative: bool, digits: string, d: nat, v: real)
    requires EndsWithDecimals(digits, d) && IsDigit(digits[0]) && DecimalText(digits)
    requires UnsignedDecimal(digits) == Some(v)
    ensures ParseDecimal(Signed(negative, digits, d)) == Some(if negative then -v else v)
  {
    var s := Signed(negative, digits, d);
    DecimalTextUnspaced(digits);
    if negative {
      NegatedUnspaced(digits);
      ParseNegated(s, digits, v);
    } else {
      ParseUnsigned(s, v);
    }
  }

  lemma {:induction false} DecimalTextUnspaced(s: string)
    requires DecimalText(s)
    ensures forall i :: 0 <= i < |s| ==> !IsSpace(s[i])
  {
    forall i | 0 <= i < |s| ensures !IsSpace(s[i]) {
      assert IsDigit(s[i]) || s[i] == '.';
    }
  }

  lemma {:induction false} NegatedUnspaced(s: string)
    requires forall i :: 0 <= i < |s| ==> !IsSpace(s[i])
    ensures forall i :: 0 <= i < |"-" + s| ==> !IsSpace(("-" + s)[i])
  {
    forall i | 0 <= i < |"-" + s| ensures !IsSpace(("-" + s)[i]) {
      if i > 0 {
        assert ("-" + s)[i] == s[i - 1];
      }
    }
  }

  lemma {:induction false} ParseNegated(s: string, digits: string, v: real)
    requires s == "-" + digits && UnsignedDecimal(digits) == Some(v)
    requires forall i :: 0 <= i < |s| ==> !IsSpace(s[i])
    ensures ParseDecimal(s) == Some(-v)
  {
    StripOfUnspaced(s);
    assert s[1..] == digits;
  }

  lemma {:induction false} ParseUnsigned(s: string, v: real)
    requires |s| > 0 && IsDigit(s[0]) && UnsignedDecimal(s) == Some(v)
    requires forall i :: 0 <= i < |s| ==> !IsSpace(s[i])
    ensures ParseDecimal(s) == Some(v)
  {
    StripOfUnspaced(s);
  }

  /** The rendered value is within half a unit of the last kept decimal of x. */
  lemma {:induction false} ToFixedClose(x: real, d: nat)
    ensures -0.5 <= Scale(FixedValue(x, d), d) - Scale(x, d) <= 0.5
  {
    var n := FixedUnits(x, d);
    assert -0.5 < n as real - Magnify(Abs(x), d) <= 0.5;
    MagnifyShift(n as real, d);
    MagnifyIsScale(FixedValue(x, d), d);
    MagnifyIsScale(x, d);
    if x < 0.0 {
      MagnifyNegate(UnitsValue(n, d), d);
      MagnifyNegate(x, d);
    }
  }

  // ---- toLocaleString ----

  /** Digits, ',', '.' and '-' only: what an en-US locale string is made of. */
  predicate LocaleText(s: string) {
    forall i :: 0 <= i < |s| ==> IsDigit(s[i]) || s[i] == ',' || s[i] == '.' || s[i] == '-'
  }

  lemma {:induction false} LocaleConcat(a: string, b: string)
    requires LocaleText(a) && LocaleText(b)
    ensures LocaleText(a + b)
  {
    forall i | 0 <= i < |a + b|
      ensures IsDigit((a + b)[i]) || (a + b)[i] == ',' || (a + b)[i] == '.' || (a + b)[i] == '-'
    {
      if i >= |a| {
        assert (a + b)[i] == b[i - |a|];
      }
    }
  }

  /** Groups of three digits, from the right, joined by ','. */
  function GroupThousands(digits: string): (s: string)
    requires AllDigits(digits)
    ensures LocaleText(s)
    decreases |digits|
  {
    if |digits| <= 3 then digits
    else
      var front, back := GroupThousands(digits[..|digits| - 3]), digits[|digits| - 3..];
      LocaleConcat(front, ",");
      LocaleConcat(front + ",", back);
      front + "," + back
  }

  /** Trailing zeros of a fraction dropped. */
  function TrimZeros(fraction: string): (s: string)
    requires AllDigits(fraction)
    ensures |s| <= |fraction| && s == fraction[..|s|] && AllDigits(s)
    ensures s == [] || s[|s| - 1] != '0'
  {
    if |fraction| > 0 && fraction[|fraction| - 1] == '0' then TrimZeros(fraction[..|fraction| - 1]) else fraction
  }

  /** The en-US rendering of n thousandths: grouped integer digits, then any fraction digits short of trailing zeros. */
  function LocaleDigits(negative: bool, n: nat): (s: string)
    ensures LocaleText(s)
  {
    var sign := if negative then "-" else "";
    var integer := GroupThousands(PaddedDigits(n / 1000, 1));
    var fraction := TrimZeros(PaddedDigits(n % 1000, 3));
    var tail := if fraction == "" then "" else "." + fraction;
    LocaleConcat(".", fraction);
    LocaleConcat(sign, integer);
    LocaleConcat(sign + integer, tail);
    sign + integer + tail
  }

  /**
   * `n.toLocaleString()` in the en-US locale: the magnitude rounded to three
   * fraction digits (halves away from zero), the integer digits grouped by
   * thousands, the fraction without trailing zeros.
   */
  function LocaleString(x: real): (s: string)
    ensures LocaleText(s)
  {
    LocaleDigits(x < 0.0, FixedUnits(x, 3))
  }

  // ---- the formatters ----

  /** The last character of a formatted amount, where a magnitude suffix goes. */
  function SuffixOf(s: string): char {
    if |s| == 0 then ' ' else s[|s| - 1]
  }

  /** A locale string carries no magnitude suffix. */
  lemma {:induction false} LocaleStringUnsuffixed(x: real)
    ensures SuffixOf(LocaleString(x)) !in "KMBT%"
  {
    LocaleTextUnsuffixed(LocaleString(x));
  }

  lemma {:induction false} LocaleTextUnsuffixed(s: string)
    requires LocaleText(s)
    ensures SuffixOf(s) !in "KMBT%"
  {
    if |s| > 0 {
      var c := s[|s| - 1];
      assert IsDigit(c) || c == ',' || c == '.' || c == '-';
    }
  }

  /**
   * `formatCurrency(value, sentCurrency = '$', decimals = 2)`: "N/A" for a
   * missing value, else the prefix followed by `toFixed(decimals)`.
   */
  function FormatCurrency(v: JsNumber, prefix: string, decimals: nat): (s: string)
    ensures !v.Finite? ==> s == NotAvailable
    ensures v.Finite? ==> |s| > |prefix| && s[..|prefix|] == prefix && s[|prefix|..] == ToFixed(v.x, decimals)
  {
    match v
    case Finite(x) =>
      var t := ToFixed(x, decimals);
      var s := prefix + t;
      assert s[..|prefix|] == prefix && s[|prefix|..] == t;
      s
    case _ => NotAvailable
  }

  /** `formatPercent(value, decimals = 2)`: a hundred times the value, `toFixed(decimals)`, then '%'. */
  function FormatPercent(v: JsNumber, decimals: nat): (s: string)
    ensures s == NotAvailable <==> !v.Finite?
    ensures v.Finite? ==> |s| > 1 && SuffixOf(s) == '%' && s[..|s| - 1] == ToFixed(v.x * 100.0, decimals)
  {
    match v
    case Finite(x) =>
      var t := ToFixed(x * 100.0, decimals);
      var s := t + "%";
      assert s[..|s| - 1] == t;
      assert s[0] != 'N';
      s
    case _ => NotAvailable
  }

  /** `formatNumber(value, decimals = 4)`: `toFixed(decimals)`, or "N/A" exactly for a missing value. */
  function FormatNumber(v: JsNumber, decimals: nat): (s: string)
    ensures s == NotAvailable <==> !v.Finite?
    ensures v.Finite? ==> s == ToFixed(v.x, decimals)
  {
    match v
    case Finite(x) =>
      assert ToFixed(x, decimals)[0] != 'N';
      ToFixed(x, decimals)
    case _ => NotAvailable
  }

  /** An amount in units of `unit`, at d decimals, followed by its suffix. */
  function Suffixed(x: real, unit: real, d: nat, suffix: char): (s: string)
    requires unit > 0.0
    ensures |s| > 1 && SuffixOf(s) == suffix && s[..|s| - 1] == ToFixed(x / unit, d)
  {
    var t := ToFixed(x / unit, d);
    var s := t + [suffix];
    assert s[..|s| - 1] == t;
    s
  }

  /**
   * `formatVolume(value)`: billions 'B' and millions 'M' at two decimals,
   * thousands 'K' at one, smaller amounts as the locale string.
   */
  function FormatVolume(v: JsNumber): (s: string)
    ensures !v.Finite? ==> s == NotAvailable
    ensures v.Finite? && v.x >= 1000000000.0 ==> s == Suffixed(v.x, 1000000000.0, 2, 'B')
    ensures v.Finite? && 1000000.0 <= v.x < 1000000000.0 ==> s == Suffixed(v.x, 1000000.0, 2, 'M')
    ensures v.Finite? && 1000.0 <= v.x < 1000000.0 ==> s == Suffixed(v.x, 1000.0, 1, 'K')
    ensures v.Finite? && v.x < 1000.0 ==> s == LocaleString(v.x)
  {
    match v
    case Finite(n) =>
      if n >= 1000000000.0 then Suffixed(n, 1000000000.0, 2, 'B')
      else if n >= 1000000.0 then Suffixed(n, 1000000.0, 2, 'M')
      else if n >= 1000.0 then Suffixed(n, 1000.0, 1, 'K')
      else LocaleString(n)
    case _ => NotAvailable
  }

  /** The last character of a formatted volume names its tier exactly. */
  lemma {:induction false} VolumeSuffixNamesTier(n: real)
    ensures SuffixOf(FormatVolume(Finite(n))) == 'B' <==> n >= 1000000000.0
    ensures SuffixOf(FormatVolume(Finite(n))) == 'M' <==> 1000000.0 <= n < 1000000000.0
    ensures SuffixOf(FormatVolume(Finite(n))) == 'K' <==> 1000.0 <= n < 1000000.0
  {
    if n < 1000.0 {
      LocaleStringUnsuffixed(n);
    }
  }

  /**
   * `formatMarketCap(value)`: always '$', then trillions 'T', billions 'B'
   * and millions 'M' at two decimals, smaller amounts as the locale string.
   */
  function FormatMarketCap(v: JsNumber): (s: string)
    ensures !v.Finite? ==> s == NotAvailable
    ensures v.Finite? ==> |s| > 0 && s[0] == '$'
    ensures v.Finite? && v.x >= 1000000000000.0 ==> s[1..] == Suffixed(v.x, 1000000000000.0, 2, 'T')
    ensures v.Finite? && 1000000000.0 <= v.x < 1000000000000.0 ==> s[1..] == Suffixed(v.x, 1000000000.0, 2, 'B')
    ensures v.Finite? && 1000000.0 <= v.x < 1000000000.0 ==> s[1..] == Suffixed(v.x, 1000000.0, 2, 'M')
    ensures v.Finite? && v.x < 1000000.0 ==> s[1..] == LocaleString(v.x)
  {
    match v
    case Finite(n) =>
      var amount :=
        if n >= 1000000000000.0 then Suffixed(n, 1000000000000.0, 2, 'T')
        else if n >= 1000000000.0 then Suffixed(n, 1000000000.0, 2, 'B')
        else if n >= 1000000.0 then Suffixed(n, 1000000.0, 2, 'M')
        else LocaleString(n);
      assert ("$" + amount)[1..] == amount;
      "$" + amount
    case _ => NotAvailable
  }

  /** The last character of a formatted market capitalisation names its tier exactly. */
  lemma {:induction false} MarketCapSuffixNamesTier(n: real)
    ensures SuffixOf(FormatMarketCap(Finite(n))) == 'T' <==> n >= 1000000000000.0
    ensures SuffixOf(FormatMarketCap(Finite(n))) == 'B' <==> 1000000000.0 <= n < 1000000000000.0
    ensures SuffixOf(FormatMarketCap(Finite(n))) == 'M' <==> 1000000.0 <= n < 1000000000.0
  {
    var s := FormatMarketCap(Finite(n));
    assert SuffixOf(s) == if |s| == 1 then '$' else SuffixOf(s[1..]);
    if n < 1000000.0 {
      LocaleStringUnsuffixed(n);
    }
  }

  // ---- the price cells ----

  /**
   * The price cells as written: `formatCurrency(price, 4)` passes 4 as the
   * prefix and leaves the decimals at their default of 2.
   */
  function PriceCellAsWritten(v: JsNumber): (s: string)
    ensures !v.Finite? ==> s == NotAvailable
    ensures v.Finite? ==> |s| > 3 && s[0] == '4' && s[1..] == ToFixed(v.x, 2)
  {
    FormatCurrency(v, "4", 2)
  }

  /** A price of 1.5 is shown as "41.50". */
  lemma {:induction false} PriceCellAsWrittenShowsFour()
    ensures PriceCellAsWritten(Finite(1.5)) == "41.50"
  {
    assert Magnify(Abs(1.5), 2) == 150.0;
    assert FixedUnits(1.5, 2) == 150;
    assert ShowNat(150) == "150" by {
      assert ShowNat(1) == "1";
      assert ShowNat(15) == "15";
    }
    assert PaddedDigits(150, 3) == "150";
    assert ToFixed(1.5, 2) == "1.50";
  }

  /** The price cells as evidently intended: a dollar sign and four decimals. */
  function PriceCell(v: JsNumber): (s: string)
    ensures !v.Finite? ==> s == NotAvailable
    ensures v.Finite? ==> |s| > 5 && s[0] == '$' && s[1..] == ToFixed(v.x, 4)
  {
    FormatCurrency(v, "$", 4)
  }
}
