/**
 * The string operations the dashboards apply to region names: Python's
 * `str.strip()` with no argument and `str.lower()`.
 */
module Text {

  /** The characters for which Python's `str.isspace()` holds. */
  predicate IsSpace(c: char) {
    c == ' ' || ('\t' <= c <= '\r') || ('\U{1C}' <= c <= '\U{1F}') || c == '\U{85}' || c == '\U{A0}'
    || c == '\U{1680}' || ('\U{2000}' <= c <= '\U{200A}') || c == '\U{2028}' || c == '\U{2029}'
    || c == '\U{202F}' || c == '\U{205F}' || c == '\U{3000}'
  }

  /** Number of whitespace characters at the start of `s`. */
  function LeadingSpaces(s: string): (k: nat)
    ensures k <= |s|
    ensures forall i :: 0 <= i < k ==> IsSpace(s[i])
    ensures k == |s| || !IsSpace(s[k])
  {
    if |s| > 0 && IsSpace(s[0]) then 1 + LeadingSpaces(s[1..]) else 0
  }

  /** Number of whitespace characters at the end of `s`. */
  function TrailingSpaces(s: string): (k: nat)
    ensures k <= |s|
    ensures forall i :: |s| - k <= i < |s| ==> IsSpace(s[i])
    ensures k == |s| || !IsSpace(s[|s| - 1 - k])
  {
    if |s| > 0 && IsSpace(s[|s| - 1]) then 1 + TrailingSpaces(s[..|s| - 1]) else 0
  }

  /** `s.strip()`: `s` without its leading and trailing whitespace. */
  function Strip(s: string): string {
    var t := s[LeadingSpaces(s)..];
    t[..|t| - TrailingSpaces(t)]
  }

  /** `Strip(s)` is the middle of `s`: whitespace on either side of it, none at its own ends. */
  lemma StripIsMiddle(s: string)
    ensures var a := LeadingSpaces(s);
            var r := Strip(s);
            && a + |r| <= |s|
            && r == s[a..a + |r|]
            && (forall i :: 0 <= i < a || a + |r| <= i < |s| ==> IsSpace(s[i]))
            && (r == [] || (!IsSpace(r[0]) && !IsSpace(r[|r| - 1])))
  {
    var a := LeadingSpaces(s);
    var t := s[a..];
    var b := TrailingSpaces(t);
    var r := Strip(s);
    assert r == t[..|t| - b];
    forall i | a + |r| <= i < |s| ensures IsSpace(s[i]) {
      assert s[i] == t[i - a];
    }
  }

  /** A string that neither starts nor ends with whitespace is its own strip. */
  lemma StripUnchanged(s: string)
    requires s == [] || (!IsSpace(s[0]) && !IsSpace(s[|s| - 1]))
    ensures Strip(s) == s
  {
    assert LeadingSpaces(s) == 0;
    assert s[0..] == s;
  }

  /** `c.lower()` for the ASCII capitals; every other character is left alone. */
  function LowerChar(c: char): char {
    if 'A' <= c <= 'Z' then (c as int - 'A' as int + 'a' as int) as char else c
  }

  /**
   * `s.lower()`: same length, no capital left; each capital becomes the
   * letter 32 code points above it and every other character stays.
   */
  function Lower(s: string): (r: string)
    ensures |r| == |s|
    ensures forall i :: 0 <= i < |r| ==> !('A' <= r[i] <= 'Z')
    ensures forall i :: 0 <= i < |s| && !('A' <= s[i] <= 'Z') ==> r[i] == s[i]
    ensures forall i :: 0 <= i < |s| && 'A' <= s[i] <= 'Z' ==> r[i] as int == s[i] as int + 32
  {
    seq(|s|, i requires 0 <= i < |s| => LowerChar(s[i]))
  }

  /** Lower-casing neither creates nor removes whitespace, and a second pass changes nothing. */
  lemma LowerCharFacts(c: char)
    ensures IsSpace(LowerChar(c)) <==> IsSpace(c)
    ensures LowerChar(LowerChar(c)) == LowerChar(c)
    ensures !('A' <= LowerChar(c) <= 'Z')
  {
  }

  /**
   * The canonical region key: `str(region).strip().lower()`, so that
   * "North", " north " and "NORTH" all become "north".
   */
  function NormaliseRegion(s: string): string {
    Lower(Strip(s))
  }

  /** A canonical key holds no capital letter and neither starts nor ends with whitespace. */
  lemma {:induction false} NormalisedShape(s: string)
    ensures var r := NormaliseRegion(s);
            && (forall i :: 0 <= i < |r| ==> !('A' <= r[i] <= 'Z'))
            && (r == [] || (!IsSpace(r[0]) && !IsSpace(r[|r| - 1])))
  {
    var t := Strip(s);
    var r := NormaliseRegion(s);
    StripIsMiddle(s);
    forall i | 0 <= i < |r| ensures !('A' <= r[i] <= 'Z') {
      LowerCharFacts(t[i]);
    }
    if r != [] {
      LowerCharFacts(t[0]);
      LowerCharFacts(t[|t| - 1]);
    }
  }

  /** Normalising a key a second time gives the same key. */
  lemma {:induction false} NormaliseRegionIdempotent(s: string)
    ensures NormaliseRegion(NormaliseRegion(s)) == NormaliseRegion(s)
  {
    var r := NormaliseRegion(s);
    NormalisedShape(s);
    StripUnchanged(r);
    var l := Lower(r);
    assert |l| == |r|;
    forall i | 0 <= i < |r| ensures l[i] == r[i] {
      var t := Strip(s);
      LowerCharFacts(t[i]);
    }
  }

  /** "North", as written in the raw files, becomes the key "north". */
  lemma NorthCapitalised()
    ensures NormaliseRegion("North") == "north"
  {
    StripUnchanged("North");
    LowerExample("North");
  }

  /** " north ", with surrounding blanks, becomes the key "north". */
  lemma NorthPadded()
    ensures NormaliseRegion(" north ") == "north"
  {
    assert Strip(" north ") == "north" by {
      assert LeadingSpaces(" north ") == 1;
      assert " north "[1..] == "north ";
      assert TrailingSpaces("north ") == 1;
      assert "north "[..5] == "north";
    }
    LowerExample("north");
  }

  /** "NORTH" becomes the key "north". */
  lemma NorthUpper()
    ensures NormaliseRegion("NORTH") == "north"
  {
    StripUnchanged("NORTH");
    LowerExample("NORTH");
  }

  lemma LowerExample(s: string)
    requires |s| == 5 && LowerChar(s[0]) == 'n' && LowerChar(s[1]) == 'o' && LowerChar(s[2]) == 'r'
                     && LowerChar(s[3]) == 't' && LowerChar(s[4]) == 'h'
    ensures Lower(s) == "north"
  {
  }
}
