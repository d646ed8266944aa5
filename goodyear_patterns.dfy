// The text patterns of tire_catalog/import_goodyear_2022.py: the three
// tire-size regular expressions, the ply-rating, tube-type and part-number
// token tests, and `parse_number`.
//
// Each regular expression is written out as the left-to-right scan it
// performs. Every repeated element in these patterns is followed by a
// character its own class cannot match, so the scan never has to back off,
// and the greedy reading is the only match. Matching is case-insensitive
// as in the source; character classes are the ASCII ones.

module GoodyearPatterns {
  import opened Wrappers
  import opened Strings

  // ---------------------------------------------------------------------
  // Scanning helpers
  // ---------------------------------------------------------------------

  /** End of the run of digits that starts at `i` (`\d*`). */
  function DigitRun(s: string, i: nat): (j: nat)
    requires i <= |s|
    ensures i <= j <= |s|
    ensures forall k :: i <= k < j ==> IsDigit(s[k])
    ensures j == |s| || !IsDigit(s[j])
    decreases |s| - i
  {
    if i < |s| && IsDigit(s[i]) then DigitRun(s, i + 1) else i
  }

  /** End of the run of whitespace that starts at `i` (`\s*`). */
  function SpaceRun(s: string, i: nat): (j: nat)
    requires i <= |s|
    ensures i <= j <= |s|
    ensures forall k :: i <= k < j ==> IsSpace(s[k])
    decreases |s| - i
  {
    if i < |s| && IsSpace(s[i]) then SpaceRun(s, i + 1) else i
  }

  /** The characters a tire size is written with. */
  predicate SizeChar(c: char)
  {
    IsDigit(c) || IsLetter(c) || c == '.' || c == '-'
  }

  /** `(?:\.\d+)?` at `i`: past the fraction when a point and a digit follow, otherwise `i`. */
  function OptionalFraction(s: string, i: nat): (j: nat)
    requires i <= |s|
    ensures i <= j <= |s|
    ensures forall k :: i <= k < j ==> SizeChar(s[k])
    ensures j > i ==> j == |s| || !IsDigit(s[j])
  {
    if i < |s| && s[i] == '.' && DigitRun(s, i + 1) > i + 1 then DigitRun(s, i + 1) else i
  }

  // ---------------------------------------------------------------------
  // Tire sizes
  // ---------------------------------------------------------------------

  /** The size written with an `x`, such as 24x7.25-10 or 15X6.0-6: the end of its match at the start of `s`. */
  function XSizeEnd(s: string): (r: Option<nat>)
    ensures r.Some? ==> 0 < r.value <= |s| && forall k :: 0 <= k < r.value ==> SizeChar(s[k])
  {
    var a := if 0 < |s| && IsLetter(s[0]) then 1 else 0;
    var b := DigitRun(s, a);
    var c := OptionalFraction(s, b);
    if b == a || c == |s| || (s[c] != 'x' && s[c] != 'X') then None
    else
      var d := DigitRun(s, c + 1);
      var e := OptionalFraction(s, d);
      if d == c + 1 || e == |s| || s[e] != '-' then None
      else
        var f := DigitRun(s, e + 1);
        if f == e + 1 then None else Some(OptionalFraction(s, f))
  }

  /** The size without a width, such as 6.00-6: the end of its match at the start of `s`. */
  function AltSizeEnd(s: string): (r: Option<nat>)
    ensures r.Some? ==> 0 < r.value <= |s| && forall k :: 0 <= k < r.value ==> SizeChar(s[k])
  {
    var b := DigitRun(s, 0);
    if b == 0 || b == |s| || s[b] != '.' then None
    else
      var c := DigitRun(s, b + 1);
      if c == b + 1 || c == |s| || s[c] != '-' then None
      else
        var d := DigitRun(s, c + 1);
        if d == c + 1 then None else Some(d)
  }

  /** The metric size, three digits, `x`, two or three digits, `-`, digits (380x150-6): the end of its match. */
  function MetricSizeEnd(s: string): (r: Option<nat>)
    ensures r.Some? ==> 0 < r.value <= |s| && forall k :: 0 <= k < r.value ==> SizeChar(s[k])
  {
    if |s| < 4 || DigitRun(s, 0) < 3 || (s[3] != 'x' && s[3] != 'X') then None
    else
      var width := DigitRun(s, 4) - 4;
      var p := 4 + (if width > 3 then 3 else width);
      if width < 2 || p == |s| || s[p] != '-' then None
      else
        var d := DigitRun(s, p + 1);
        if d == p + 1 then None else Some(d)
  }

  /** A pattern's trailing `\s+`: the match stands only when whitespace follows it. */
  function FollowedBySpace(groupEnd: Option<nat>, s: string): (r: Option<nat>)
    ensures r.Some? ==> groupEnd == r && r.value < |s| && IsSpace(s[r.value])
    ensures groupEnd.Some? && groupEnd.value < |s| && IsSpace(s[groupEnd.value]) ==> r == groupEnd
  {
    if groupEnd.Some? && groupEnd.value < |s| && IsSpace(s[groupEnd.value]) then groupEnd else None
  }

  /**
   * The three patterns tried in order at the start of `s`, as the importer
   * tries them: the end of the captured size when one matches.
   */
  function SizeMatchEnd(s: string): (r: Option<nat>)
    ensures r.Some? ==> 0 < r.value < |s| && IsSpace(s[r.value])
    ensures r.Some? ==> forall k :: 0 <= k < r.value ==> SizeChar(s[k])
  {
    if FollowedBySpace(XSizeEnd(s), s).Some? then FollowedBySpace(XSizeEnd(s), s)
    else if FollowedBySpace(AltSizeEnd(s), s).Some? then FollowedBySpace(AltSizeEnd(s), s)
    else FollowedBySpace(MetricSizeEnd(s), s)
  }

  /** Whichever pattern matches, the captured size is exactly the first word of `s`. */
  lemma SizeIsFirstWord(s: string)
    requires SizeMatchEnd(s).Some?
    ensures SizeMatchEnd(s).value == WordLength(s)
  {
    var g := SizeMatchEnd(s).value;
    forall k | 0 <= k < g
      ensures !IsSpace(s[k])
    {
      assert SizeChar(s[k]);
    }
    WordLengthAt(s, g);
  }

  /** The metric pattern never decides: whatever it matches, the `x` pattern matches first, with the same size. */
  lemma MetricPatternSubsumed(s: string)
    requires FollowedBySpace(MetricSizeEnd(s), s).Some?
    ensures FollowedBySpace(XSizeEnd(s), s) == FollowedBySpace(MetricSizeEnd(s), s)
  {
    var g := MetricSizeEnd(s).value;
    assert DigitRun(s, 0) == 3;
    assert OptionalFraction(s, 3) == 3;
    var width := DigitRun(s, 4) - 4;
    assert width <= 3;
    assert OptionalFraction(s, DigitRun(s, 4)) == DigitRun(s, 4);
    assert OptionalFraction(s, g) == g;
  }

  /** A whole token is a tire size: the importer tests `token + ' '` against the patterns. */
  predicate IsSizeToken(token: string)
  {
    SizeMatchEnd(token + " ").Some?
  }

  // ---------------------------------------------------------------------
  // Token tests
  // ---------------------------------------------------------------------

  /** `^\d{1,2}(PR)?$`, any case: a ply rating such as 6, 10 or 8PR. */
  predicate IsPlyToken(token: string)
  {
    var n := |token| - (if |token| >= 2 && Upper(token[|token| - 2..]) == "PR" then 2 else 0);
    1 <= n <= 2 && forall k :: 0 <= k < n ==> IsDigit(token[k])
  }

  /** `^[A-Z0-9]{5,}`, any case: a token that starts with five letters or digits. */
  predicate LooksLikePartNumber(token: string)
  {
    |token| >= 5 && Alphanumeric(token[0]) && Alphanumeric(token[1]) && Alphanumeric(token[2])
    && Alphanumeric(token[3]) && Alphanumeric(token[4])
  }

  predicate Alphanumeric(c: char)
  {
    IsLetter(c) || IsDigit(c)
  }

  // ---------------------------------------------------------------------
  // Numbers
  // ---------------------------------------------------------------------

  predicate AllDigits(s: string)
  {
    forall k :: 0 <= k < |s| ==> IsDigit(s[k])
  }

  /** The value of a string of decimal digits. */
  function DigitsValue(s: string): nat
    requires AllDigits(s)
  {
    if s == [] then 0 else DigitsValue(s[..|s| - 1]) * 10 + (s[|s| - 1] as int - '0' as int)
  }

  function Pow10(n: nat): (p: nat)
    ensures p >= 1
  {
    if n == 0 then 1 else 10 * Pow10(n - 1)
  }

  /** The value of a whole part and a fraction written with `places` digits. */
  function DecimalValue(whole: nat, fraction: nat, places: nat): real
  {
    whole as real + fraction as real / Pow10(places) as real
  }

  /** An unsigned decimal: digits with at most one point and at least one digit, such as 17, 17.50, 5. or .5. */
  function UnsignedDecimal(s: string): Option<real>
  {
    var i := DigitRun(s, 0);
    if i == |s| then
      (if i == 0 then None else Some(DigitsValue(s) as real))
    else if s[i] != '.' then None
    else
      var j := DigitRun(s, i + 1);
      if j < |s| || (i == 0 && j == i + 1) then None
      else Some(DecimalValue(DigitsValue(s[..i]), DigitsValue(s[i + 1..]), j - i - 1))
  }

  /** Python's `float(t)` on decimal notation: surrounding whitespace, an optional sign, an unsigned decimal. */
  function FloatOf(t: string): Option<real>
  {
    var u := Strip(t);
    if u != [] && (u[0] == '+' || u[0] == '-') then
      match UnsignedDecimal(u[1..])
      case None => None
      case Some(v) => Some(if u[0] == '-' then -v else v)
    else UnsignedDecimal(u)
  }

  /** `parse_number`: nothing for an empty string; otherwise the float of the stripped text with commas removed. */
  function ParseNumber(s: string): (r: Option<real>)
    ensures s == [] ==> r.None?
  {
    if s == [] then None else FloatOf(RemoveChar(Strip(s), ','))
  }

  /** The decimal digits of `n`, most significant first. */
  function NatText(n: nat): (s: string)
    ensures s != [] && AllDigits(s)
  {
    if n < 10 then ['0' + n as char] else NatText(n / 10) + ['0' + (n % 10) as char]
  }

  lemma {:induction false} NatTextValue(n: nat)
    ensures DigitsValue(NatText(n)) == n
  {
    if n >= 10 {
      NatTextValue(n / 10);
      var s := NatText(n);
      assert s[..|s| - 1] == NatText(n / 10);
    }
  }

  lemma {:induction false} DigitRunToEnd(s: string, i: nat)
    requires i <= |s| && forall k :: i <= k < |s| ==> IsDigit(s[k])
    ensures DigitRun(s, i) == |s|
    decreases |s| - i
  {
    if i < |s| {
      DigitRunToEnd(s, i + 1);
    }
  }

  /** A text that is all digits reads as its value. */
  lemma ParseNumberOfDigits(s: string)
    requires s != [] && AllDigits(s)
    ensures ParseNumber(s) == Some(DigitsValue(s) as real)
  {
    ParseNumberUnsigned(s);
    DigitRunToEnd(s, 0);
  }

  /** Reading back the digits of any natural number gives that number. */
  lemma ParseNumberOfNatText(n: nat)
    ensures ParseNumber(NatText(n)) == Some(n as real)
  {
    NatTextValue(n);
    ParseNumberOfDigits(NatText(n));
  }

  lemma RemoveCommaBetween(a: string, b: string)
    ensures RemoveChar(a + "," + b, ',') == RemoveChar(a + b, ',')
  {
    assert a + "," + b == a + ("," + b);
    RemoveCharAppend(a, "," + b, ',');
    RemoveCharAppend(",", b, ',');
    RemoveCharAppend(a, b, ',');
  }

  lemma StripJoined(a: string, b: string)
    requires a != [] && b != [] && !IsSpace(a[0]) && !IsSpace(b[|b| - 1])
    ensures Strip(a + "," + b) == a + "," + b
    ensures Strip(a + b) == a + b
  {
    var withComma, without := a + "," + b, a + b;
    assert withComma[0] == a[0] && withComma[|withComma| - 1] == b[|b| - 1];
    StripUnpadded(withComma);
    assert without[0] == a[0] && without[|without| - 1] == b[|b| - 1];
    StripUnpadded(without);
  }

  /** A comma between two parts is dropped before parsing: "1,600" reads as 1600. */
  lemma ParseNumberIgnoresComma(a: string, b: string)
    requires a != [] && b != [] && !IsSpace(a[0]) && !IsSpace(b[|b| - 1])
    ensures ParseNumber(a + "," + b) == ParseNumber(a + b)
  {
    StripJoined(a, b);
    RemoveCommaBetween(a, b);
  }

  lemma ParseNumberExamples()
    ensures ParseNumber("1,600") == Some(1600.0)
    ensures ParseNumber("17.50") == Some(17.5)
    ensures ParseNumber("-3") == Some(-3.0)
    ensures ParseNumber("TL") == None
  {
    ParseThousandsExample();
    ParseDecimalExample();
    ParseNegativeExample();
    ParseWordExample();
  }

  lemma ParseThousandsExample()
    ensures ParseNumber("1,600") == Some(1600.0)
  {
    ParseNumberIgnoresComma("1", "600");
    NatText1600();
    ParseNumberOfNatText(1600);
  }

  lemma NatText1600()
    ensures NatText(1600) == "1" + "600" && "1" + "," + "600" == "1,600"
  {
    assert NatText(1) == "1";
    assert NatText(16) == "16";
    assert NatText(160) == "160";
  }

  /** Text without padding, commas or sign parses as an unsigned decimal. */
  lemma ParseNumberUnsigned(t: string)
    requires t != [] && IsDigit(t[0]) && !IsSpace(t[|t| - 1])
    requires forall k :: 0 <= k < |t| ==> t[k] != ','
    ensures ParseNumber(t) == UnsignedDecimal(t)
  {
    StripUnpadded(t);
    RemoveCharAbsent(t, ',');
  }

  lemma UnsignedDecimalWithPoint(t: string, i: nat)
    requires 0 < i < |t| - 1 && t[i] == '.'
    requires forall k :: 0 <= k < i ==> IsDigit(t[k])
    requires forall k :: i < k < |t| ==> IsDigit(t[k])
    ensures UnsignedDecimal(t) == Some(DecimalValue(DigitsValue(t[..i]), DigitsValue(t[i + 1..]), |t| - i - 1))
  {
    DigitRunPrefix(t, i);
    DigitRunToEnd(t, i + 1);
  }

  lemma UnsignedDecimalOfParts(w: string, fraction: string)
    requires w != [] && AllDigits(w) && fraction != [] && AllDigits(fraction)
    ensures UnsignedDecimal(w + "." + fraction)
         == Some(DecimalValue(DigitsValue(w), DigitsValue(fraction), |fraction|))
  {
    var t := w + "." + fraction;
    assert t[..|w|] == w && t[|w|] == '.' && t[|w| + 1..] == fraction;
    forall k | 0 <= k < |w|
      ensures IsDigit(t[k])
    {
      assert t[k] == w[k];
    }
    forall k | |w| < k < |t|
      ensures IsDigit(t[k])
    {
      assert t[k] == fraction[k - |w| - 1];
    }
    UnsignedDecimalWithPoint(t, |w|);
  }

  /** Digits, a point and more digits read as the whole part plus the scaled fraction. */
  lemma ParseNumberOfDecimalText(whole: nat, fraction: string)
    requires fraction != [] && AllDigits(fraction)
    ensures ParseNumber(NatText(whole) + "." + fraction) == Some(DecimalValue(whole, DigitsValue(fraction), |fraction|))
  {
    var w := NatText(whole);
    DecimalTextShape(w, fraction);
    ParseNumberUnsigned(w + "." + fraction);
    UnsignedDecimalOfParts(w, fraction);
    NatTextValue(whole);
  }

  /** Digits, a point and digits: starts with a digit, ends in one, and holds no comma. */
  lemma DecimalTextShape(w: string, fraction: string)
    requires w != [] && AllDigits(w) && fraction != [] && AllDigits(fraction)
    ensures var t := w + "." + fraction;
            && t != [] && IsDigit(t[0]) && !IsSpace(t[|t| - 1])
            && forall k :: 0 <= k < |t| ==> t[k] != ','
  {
    var t := w + "." + fraction;
    assert t[0] == w[0] && t[|t| - 1] == fraction[|fraction| - 1];
    forall k | 0 <= k < |t|
      ensures t[k] != ','
    {
      if k < |w| {
        assert t[k] == w[k];
      } else if k > |w| {
        assert t[k] == fraction[k - |w| - 1];
      }
    }
  }

  /** The digit run from the start of `s` stops at `n` when `s[..n]` is all digits and `s[n]` is not a digit. */
  lemma {:induction false} DigitRunPrefix(s: string, n: nat)
    requires n < |s| && !IsDigit(s[n]) && forall k :: 0 <= k < n ==> IsDigit(s[k])
    ensures DigitRun(s, 0) == n
  {
    DigitRunFrom(s, 0, n);
  }

  lemma {:induction false} DigitRunFrom(s: string, i: nat, n: nat)
    requires i <= n < |s| && !IsDigit(s[n]) && forall k :: i <= k < n ==> IsDigit(s[k])
    ensures DigitRun(s, i) == n
    decreases n - i
  {
    if i < n {
      DigitRunFrom(s, i + 1, n);
    }
  }

  lemma ParseDecimalExample()
    ensures ParseNumber("17.50") == Some(17.5)
  {
    ParseNumberOfDecimalText(17, "50");
    DecimalExampleText();
    NatTextValue(50);
    assert DecimalValue(17, 50, 2) == 17.5;
  }

  lemma DecimalExampleText()
    ensures NatText(17) + "." + "50" == "17.50"
    ensures NatText(50) == "50"
    ensures Pow10(2) == 100
  {
    assert NatText(1) == "1";
    assert NatText(17) == "17";
    assert NatText(5) == "5";
    assert NatText(50) == "50";
  }

  lemma ParseNegativeExample()
    ensures ParseNumber("-3") == Some(-3.0)
  {
    var m := "-3";
    StripUnpadded(m);
    RemoveCharAbsent(m, ',');
    assert m[1..] == "3";
    DigitRunToEnd("3", 0);
  }

  lemma ParseWordExample()
    ensures ParseNumber("TL") == None
  {
    var tl := "TL";
    StripUnpadded(tl);
    RemoveCharAbsent(tl, ',');
    assert DigitRun(tl, 0) == 0;
  }
}
