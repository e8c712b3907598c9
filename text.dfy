/**
 * The string operations the handlers and the browser code apply to query
 * parameters and form fields: trimming, ASCII case mapping, substring tests,
 * and the integer and decimal parsers behind Python's `int()`/`float()` and
 * JavaScript's `parseFloat`.
 */
module Text {
  import opened Common

  /** The ASCII whitespace that both Python's `str.strip()` and JavaScript's `trim()` remove. */
  predicate IsSpace(c: char) {
    c == ' ' || c == '\t' || c == '\n' || c == '\r' || c == '\U{0B}' || c == '\U{0C}'
  }

  function TrimStart(s: string): (r: string)
    ensures |r| <= |s| && r == s[|s| - |r|..]
    ensures r == [] || !IsSpace(r[0])
    ensures forall i :: 0 <= i < |s| - |r| ==> IsSpace(s[i])
  {
    if |s| > 0 && IsSpace(s[0]) then
      var r := TrimStart(s[1..]);
      assert s[1..][|s| - 1 - |r|..] == s[|s| - |r|..];
      r
    else s
  }

  function TrimEnd(s: string): (r: string)
    ensures |r| <= |s| && r == s[..|r|]
    ensures r == [] || !IsSpace(r[|r| - 1])
    ensures forall i :: |r| <= i < |s| ==> IsSpace(s[i])
  {
    if |s| > 0 && IsSpace(s[|s| - 1]) then TrimEnd(s[..|s| - 1]) else s
  }

  /** `s.strip()` in Python, `s.trim()` in JavaScript (over ASCII whitespace). */
  function Strip(s: string): string {
    TrimEnd(TrimStart(s))
  }

  lemma TrimStartNoSpace(s: string)
    requires s == [] || !IsSpace(s[0])
    ensures TrimStart(s) == s
  {
  }

  lemma {:induction false} TrimEndKeepsHead(s: string)
    requires s == [] || !IsSpace(s[0])
    ensures TrimEnd(s) == [] || !IsSpace(TrimEnd(s)[0])
    ensures TrimEnd(s) == [] ==> s == []
  {
    if |s| > 0 && IsSpace(s[|s| - 1]) {
      assert |s| > 1;
      TrimEndKeepsHead(s[..|s| - 1]);
    }
  }

  /** Stripping twice is stripping once. */
  lemma {:induction false} StripIdempotent(s: string)
    ensures Strip(Strip(s)) == Strip(s)
  {
    var t := TrimStart(s);
    var r := TrimEnd(t);
    TrimEndKeepsHead(t);
    TrimStartNoSpace(r);
  }

  function UpperChar(c: char): char {
    if 'a' <= c <= 'z' then (c as int - 'a' as int + 'A' as int) as char else c
  }

  function LowerChar(c: char): char {
    if 'A' <= c <= 'Z' then (c as int - 'A' as int + 'a' as int) as char else c
  }

  /** `str.upper()` / `toUpperCase()`, ASCII letters only. */
  function Upper(s: string): (r: string)
    ensures |r| == |s| && forall i :: 0 <= i < |s| ==> r[i] == UpperChar(s[i])
  {
    seq(|s|, i requires 0 <= i < |s| => UpperChar(s[i]))
  }

  /** `str.lower()` / `toLowerCase()`, ASCII letters only. */
  function Lower(s: string): (r: string)
    ensures |r| == |s| && forall i :: 0 <= i < |s| ==> r[i] == LowerChar(s[i])
  {
    seq(|s|, i requires 0 <= i < |s| => LowerChar(s[i]))
  }

  lemma UpperIdempotent(s: string)
    ensures Upper(Upper(s)) == Upper(s)
  {
  }

  /** Upper-casing does not change which characters are whitespace, so it commutes with Strip. */
  lemma {:induction false} UpperStripCommute(s: string)
    ensures Upper(Strip(s)) == Strip(Upper(s))
  {
    UpperTrimStart(s);
    UpperTrimEnd(TrimStart(s));
  }

  lemma {:induction false} UpperTrimStart(s: string)
    ensures Upper(TrimStart(s)) == TrimStart(Upper(s))
  {
    if |s| > 0 && IsSpace(s[0]) {
      assert Upper(s)[1..] == Upper(s[1..]);
      UpperTrimStart(s[1..]);
    }
  }

  lemma {:induction false} UpperTrimEnd(s: string)
    ensures Upper(TrimEnd(s)) == TrimEnd(Upper(s))
  {
    if |s| > 0 && IsSpace(s[|s| - 1]) {
      assert Upper(s)[..|s| - 1] == Upper(s[..|s| - 1]);
      UpperTrimEnd(s[..|s| - 1]);
    }
  }

  /** Python's `sub in s` for strings. */
  predicate Contains(s: string, sub: string) {
    exists i :: 0 <= i <= |s| && OccursAt(s, sub, i)
  }

  predicate OccursAt(s: string, sub: string, i: int) {
    0 <= i <= |s| - |sub| && s[i..i + |sub|] == sub
  }

  // ---- digits ----

  predicate IsDigit(c: char) { '0' <= c <= '9' }

  predicate AllDigits(s: string) { forall i :: 0 <= i < |s| ==> IsDigit(s[i]) }

  function DigitValue(c: char): nat
    requires IsDigit(c)
  {
    c as int - '0' as int
  }

  /** The number a run of decimal digits denotes. */
  function DigitsValue(s: string): nat
    requires AllDigits(s)
  {
    if |s| == 0 then 0 else DigitsValue(s[..|s| - 1]) * 10 + DigitValue(s[|s| - 1])
  }

  function DigitChar(d: nat): char
    requires d < 10
  {
    ('0' as int + d) as char
  }

  /** The decimal rendering of a natural number, without leading zeros. */
  function ShowNat(n: nat): (r: string)
    ensures |r| > 0
  {
    if n < 10 then [DigitChar(n)] else ShowNat(n / 10) + [DigitChar(n % 10)]
  }

  function ShowInt(n: int): (r: string)
    ensures |r| > 0
  {
    if n < 0 then "-" + ShowNat(-n) else ShowNat(n)
  }

  lemma {:induction false} ShowNatDigits(n: nat)
    ensures AllDigits(ShowNat(n)) && DigitsValue(ShowNat(n)) == n
  {
    if n >= 10 {
      ShowNatDigits(n / 10);
      var s := ShowNat(n);
      assert s[..|s| - 1] == ShowNat(n / 10);
    }
  }

  /**
   * Python's `int(s)` on a string: surrounding whitespace is ignored, one
   * optional sign, then at least one decimal digit; anything else raises
   * ValueError, modelled as None.
   */
  function ParseInt(s: string): Option<int> {
    var t := Strip(s);
    if |t| > 0 && (t[0] == '-' || t[0] == '+') then
      if |t| > 1 && AllDigits(t[1..]) then
        Some(if t[0] == '-' then -(DigitsValue(t[1..]) as int) else DigitsValue(t[1..]))
      else None
    else if |t| > 0 && AllDigits(t) then Some(DigitsValue(t))
    else None
  }

  lemma NoSpaceInDigits(s: string)
    requires AllDigits(s)
    ensures forall i :: 0 <= i < |s| ==> !IsSpace(s[i])
  {
  }

  lemma StripOfUnspaced(s: string)
    requires forall i :: 0 <= i < |s| ==> !IsSpace(s[i])
    ensures Strip(s) == s
  {
  }

  /** The rendering of every integer parses back to that integer. */
  lemma ParseShowInt(n: int)
    ensures ParseInt(ShowInt(n)) == Some(n)
  {
    var m: nat := if n < 0 then -n else n;
    ShowNatDigits(m);
    var t := ShowInt(n);
    if n < 0 {
      assert t[1..] == ShowNat(m);
      forall i | 0 <= i < |t| ensures !IsSpace(t[i]) {
        if i > 0 { assert t[i] == ShowNat(m)[i - 1]; }
      }
      StripOfUnspaced(t);
    } else {
      NoSpaceInDigits(t);
      StripOfUnspaced(t);
    }
  }

  /**
   * Python's `float(s)` restricted to plain decimal notation: surrounding
   * whitespace, one optional sign, digits with at most one '.', and at least
   * one digit on either side of it.
   */
  function ParseDecimal(s: string): Option<real> {
    var t := Strip(s);
    if |t| > 0 && (t[0] == '-' || t[0] == '+') then
      match UnsignedDecimal(t[1..])
      case Some(v) => Some(if t[0] == '-' then -v else v)
      case None => None
    else UnsignedDecimal(t)
  }

  /** `digits`, `digits.`, `.digits` or `digits.digits`. */
  function UnsignedDecimal(t: string): (r: Option<real>)
    ensures r.Some? ==> r.value >= 0.0
  {
    var dot := DotIndex(t);
    if dot == |t| then
      if |t| > 0 && AllDigits(t) then Some(DigitsValue(t) as real) else None
    else
      var ip, fp := t[..dot], t[dot + 1..];
      if |ip| + |fp| > 0 && AllDigits(ip) && AllDigits(fp) then
        Some(DigitsValue(ip) as real + Shift(DigitsValue(fp) as real, |fp|))
      else None
  }

  /** The index of the first '.', or |t| when there is none. */
  function DotIndex(t: string): (k: nat)
    ensures k <= |t| && (k < |t| ==> t[k] == '.')
    ensures forall i :: 0 <= i < k ==> t[i] != '.'
  {
    if |t| == 0 then 0 else if t[0] == '.' then 0 else 1 + DotIndex(t[1..])
  }

  /** a divided by 10^k, one decimal place at a time. */
  function Shift(a: real, k: nat): (r: real)
    ensures a >= 0.0 ==> r >= 0.0
  {
    if k == 0 then a else Shift(a, k - 1) / 10.0
  }

  function Pow10(n: nat): (r: real)
    ensures r >= 1.0
  {
    if n == 0 then 1.0 else 10.0 * Pow10(n - 1)
  }

  /** Whatever `int()` accepts, `float()` accepts too, with the same value. */
  lemma ParseDecimalExtendsParseInt(s: string)
    requires ParseInt(s).Some?
    ensures ParseDecimal(s) == Some(ParseInt(s).value as real)
  {
    var t := Strip(s);
    if t[0] == '-' || t[0] == '+' {
      AllDigitsHasNoDot(t[1..]);
    } else {
      AllDigitsHasNoDot(t);
    }
  }

  lemma AllDigitsHasNoDot(t: string)
    requires AllDigits(t)
    ensures DotIndex(t) == |t|
  {
    if |t| > 0 {
      assert AllDigits(t[1..]);
      AllDigitsHasNoDot(t[1..]);
    }
  }

  // ---- repr ----

  /** The quote `repr` puts around a string: '"' when it holds a single quote and no double quote, else '\''. */
  function QuoteFor(s: string): char {
    if '\'' in s && '"' !in s then '"' else '\''
  }

  /** One character as `repr` writes it inside quote `q`: backslash, `q`, tab, line feed and carriage return are escaped. */
  function EscapeChar(c: char, q: char): string {
    if c == '\\' then "\\\\"
    else if c == q then ['\\', q]
    else if c == '\n' then "\\n"
    else if c == '\r' then "\\r"
    else if c == '\t' then "\\t"
    else [c]
  }

  function Escape(s: string, q: char): string {
    if s == [] then [] else EscapeChar(s[0], q) + Escape(s[1..], q)
  }

  /** A string with nothing `repr` escapes inside single quotes. */
  predicate Plain(s: string) {
    forall i :: 0 <= i < |s| ==> s[i] != '\\' && s[i] != '\'' && s[i] != '\n' && s[i] != '\r' && s[i] != '\t'
  }

  lemma {:induction false} EscapePlain(s: string, q: char)
    requires Plain(s) && q == '\''
    ensures Escape(s, q) == s
  {
    if s != [] {
      assert Plain(s[1..]) by {
        forall i | 0 <= i < |s| - 1 ensures s[1..][i] == s[i + 1] { }
      }
      EscapePlain(s[1..], q);
    }
  }

  /**
   * Python's `repr(s)` of a string (printable characters only): the string
   * between its quotes, with the quote, backslash and line breaks escaped.
   */
  function Repr(s: string): (r: string)
    ensures |r| >= 2 + |s| && r[0] == QuoteFor(s) && r[|r| - 1] == QuoteFor(s)
    ensures Plain(s) ==> r == "'" + s + "'"
  {
    var q := QuoteFor(s);
    EscapeLength(s, q);
    assert Plain(s) ==> Escape(s, q) == s by {
      if Plain(s) { EscapePlain(s, q); }
    }
    [q] + Escape(s, q) + [q]
  }

  lemma {:induction false} EscapeLength(s: string, q: char)
    ensures |Escape(s, q)| >= |s|
  {
    if s != [] { EscapeLength(s[1..], q); }
  }

  /** A string holding a single quote and no double quote is shown between double quotes, unescaped. */
  lemma ReprOfQuoted(s: string)
    requires '\'' in s && '"' !in s
    requires forall i :: 0 <= i < |s| ==> s[i] != '\\' && s[i] != '\n' && s[i] != '\r' && s[i] != '\t'
    ensures Repr(s) == "\"" + s + "\""
  {
    EscapeUnquoted(s, '"');
  }

  lemma {:induction false} EscapeUnquoted(s: string, q: char)
    requires q == '"' && q !in s
    requires forall i :: 0 <= i < |s| ==> s[i] != '\\' && s[i] != '\n' && s[i] != '\r' && s[i] != '\t'
    ensures Escape(s, q) == s
  {
    if s != [] {
      assert s[0] in s;
      assert forall x :: x in s[1..] ==> x in s;
      EscapeUnquoted(s[1..], q);
    }
  }

  /** What `str(e)` gives for the ValueError of `int(s)` on a string Python cannot read. */
  function IntErrorMessage(s: string): string {
    "invalid literal for int() with base 10: " + Repr(s)
  }
}

