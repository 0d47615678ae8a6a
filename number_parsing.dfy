/**
 * The decimal-number grammar used when a price string is cast with
 * `astype(float)` and when the sales column is read with
 * `pd.to_numeric(..., errors="coerce")`: surrounding whitespace, an optional
 * sign, digits with an optional fractional part, an optional exponent.
 * Numbers are exact `real`s.
 */
module NumberParsing {
  import opened Wrappers
  import opened Text

  predicate IsDigit(c: char) {
    '0' <= c <= '9'
  }

  predicate AllDigits(s: string) {
    forall i :: 0 <= i < |s| ==> IsDigit(s[i])
  }

  /** The characters a parsable number can be spelled with. */
  predicate IsNumberChar(c: char) {
    IsDigit(c) || c == '+' || c == '-' || c == '.' || c == 'e' || c == 'E' || IsSpace(c)
  }

  function Pow10(n: nat): (p: nat)
    ensures p >= 1
  {
    if n == 0 then 1 else 10 * Pow10(n - 1)
  }

  /** The value of a string of decimal digits, most significant first. */
  function DigitsValue(s: string): (v: nat)
    requires AllDigits(s)
    ensures v < Pow10(|s|)
  {
    if s == [] then 0 else 10 * DigitsValue(s[..|s| - 1]) + (s[|s| - 1] as int - '0' as int)
  }

  /** Index of the first `a` or `b` in `s`, or `|s|` when there is none. */
  function FindEither(s: string, a: char, b: char): (k: nat)
    ensures k <= |s|
    ensures forall i :: 0 <= i < k ==> s[i] != a && s[i] != b
    ensures k < |s| ==> s[k] == a || s[k] == b
  {
    if s == [] then 0 else if s[0] == a || s[0] == b then 0 else 1 + FindEither(s[1..], a, b)
  }

  /** `m` times ten to the power `e`. */
  function Scale(m: real, e: int): real {
    if e >= 0 then m * Pow10(e) as real else m / Pow10(-e) as real
  }

  /** Digits with an optional '.' somewhere among them; at least one digit. */
  function ParseMantissa(s: string): Option<real> {
    var p := FindEither(s, '.', '.');
    var whole := s[..p];
    var frac := if p < |s| then s[p + 1..] else "";
    if AllDigits(whole) && AllDigits(frac) && |whole| + |frac| > 0 then
      Some(DigitsValue(whole) as real + DigitsValue(frac) as real / Pow10(|frac|) as real)
    else
      None
  }

  /** An optional sign followed by at least one digit. */
  function ParseExponent(s: string): Option<int> {
    if |s| > 0 && (s[0] == '+' || s[0] == '-') then
      var d := s[1..];
      if |d| > 0 && AllDigits(d) then Some(if s[0] == '-' then -(DigitsValue(d) as int) else DigitsValue(d)) else None
    else if |s| > 0 && AllDigits(s) then Some(DigitsValue(s))
    else None
  }

  /** A mantissa, then optionally 'e' or 'E' and an exponent. */
  function ParseUnsigned(s: string): Option<real> {
    var k := FindEither(s, 'e', 'E');
    if k == |s| then ParseMantissa(s)
    else
      match (ParseMantissa(s[..k]), ParseExponent(s[k + 1..]))
      case (Some(m), Some(e)) => Some(Scale(m, e))
      case _ => None
  }

  /** The number `s` spells, or None when it spells none (Python raises, pandas coerces to NaN). */
  function ParseNumber(s: string): Option<real> {
    var t := Strip(s);
    if |t| > 0 && (t[0] == '+' || t[0] == '-') then
      match ParseUnsigned(t[1..])
      case Some(v) => Some(if t[0] == '-' then -v else v)
      case None => None
    else
      ParseUnsigned(t)
  }

  lemma MantissaChars(s: string)
    requires ParseMantissa(s).Some?
    ensures forall i :: 0 <= i < |s| ==> IsDigit(s[i]) || s[i] == '.'
  {
    var p := FindEither(s, '.', '.');
    forall i | 0 <= i < |s| ensures IsDigit(s[i]) || s[i] == '.' {
      if i < p {
        assert s[i] == s[..p][i];
      } else if i > p {
        assert s[i] == s[p + 1..][i - p - 1];
      }
    }
  }

  lemma ExponentChars(s: string)
    requires ParseExponent(s).Some?
    ensures forall i :: 0 <= i < |s| ==> IsDigit(s[i]) || s[i] == '+' || s[i] == '-'
  {
    if s[0] == '+' || s[0] == '-' {
      forall i | 1 <= i < |s| ensures IsDigit(s[i]) {
        assert s[i] == s[1..][i - 1];
      }
    }
  }

  lemma UnsignedChars(s: string)
    requires ParseUnsigned(s).Some?
    ensures forall i :: 0 <= i < |s| ==> IsNumberChar(s[i])
  {
    var k := FindEither(s, 'e', 'E');
    if k == |s| {
      MantissaChars(s);
    } else {
      MantissaChars(s[..k]);
      ExponentChars(s[k + 1..]);
      forall i | 0 <= i < |s| ensures IsNumberChar(s[i]) {
        if i < k {
          assert s[i] == s[..k][i];
        } else if i > k {
          assert s[i] == s[k + 1..][i - k - 1];
        }
      }
    }
  }

  /**
   * Anything that parses is spelled only with digits, signs, '.', 'e', 'E'
   * and whitespace; so a string holding any other character (a letter, a
   * currency symbol, a comma) is an error.
   */
  lemma {:induction false} ParsedCharsAreNumeric(s: string)
    ensures ParseNumber(s).Some? ==> forall i :: 0 <= i < |s| ==> IsNumberChar(s[i])
  {
    if ParseNumber(s).Some? {
      var t := Strip(s);
      var a := LeadingSpaces(s);
      StripIsMiddle(s);
      if |t| > 0 && (t[0] == '+' || t[0] == '-') {
        UnsignedChars(t[1..]);
        forall i | 1 <= i < |t| ensures IsNumberChar(t[i]) {
          assert t[i] == t[1..][i - 1];
        }
      } else {
        UnsignedChars(t);
      }
      forall i | 0 <= i < |s| ensures IsNumberChar(s[i]) {
        if a <= i < a + |t| {
          assert s[i] == t[i - a];
        }
      }
    }
  }

  /** `FindEither` finds nothing in a string holding neither character. */
  lemma {:induction false} FindEitherAbsent(s: string, a: char, b: char)
    requires forall i :: 0 <= i < |s| ==> s[i] != a && s[i] != b
    ensures FindEither(s, a, b) == |s|
  {
    if s != [] {
      FindEitherAbsent(s[1..], a, b);
    }
  }

  lemma {:induction false} MantissaOfPlainDecimal(w: string, f: string)
    requires AllDigits(w) && AllDigits(f) && |w| + |f| > 0
    ensures ParseMantissa(w + "." + f)
         == Some(DigitsValue(w) as real + DigitsValue(f) as real / Pow10(|f|) as real)
  {
    var s := w + "." + f;
    var p := FindEither(s, '.', '.');
    assert s[|w|] == '.';
    assert p == |w|;
    assert s[..p] == w;
    assert p < |s| && s[p + 1..] == f;
  }

  /** A string of digits and '.' that starts with a digit is read as a bare mantissa. */
  lemma {:induction false} ParseNumberOfMantissa(s: string)
    requires |s| > 0 && IsDigit(s[0])
    requires forall i :: 0 <= i < |s| ==> IsDigit(s[i]) || s[i] == '.'
    ensures ParseNumber(s) == ParseMantissa(s)
  {
    StripUnchanged(s);
    FindEitherAbsent(s, 'e', 'E');
  }

  /** "w.f" with digit strings w (not empty) and f parses to w + f / 10^|f|. */
  lemma {:induction false} ParsePlainDecimal(w: string, f: string)
    requires |w| > 0 && AllDigits(w) && AllDigits(f)
    ensures ParseNumber(w + "." + f)
         == Some(DigitsValue(w) as real + DigitsValue(f) as real / Pow10(|f|) as real)
  {
    var s := w + "." + f;
    assert s[0] == w[0];
    forall i | 0 <= i < |s| ensures IsDigit(s[i]) || s[i] == '.' {
      if i < |w| {
        assert s[i] == w[i];
      } else if i > |w| {
        assert s[i] == f[i - |w| - 1];
      }
    }
    ParseNumberOfMantissa(s);
    MantissaOfPlainDecimal(w, f);
  }
}
