/** `WebScraper.extract_price_from_text`: raw price text (currency marks, grouping commas) to a
    positive price, or nothing. Prices are exact decimals (`real`), not binary floats. */
module PriceParser {
  import opened Wrappers
  import opened Text

  /** The characters the cleaning pattern `[^\d.,]` leaves in place. */
  predicate IsPriceChar(c: char) { IsDigit(c) || c == '.' || c == ',' }

  /** `re.sub(r'[^\d.,]', '', s)`: every character except digits, '.' and ',' removed, order kept. */
  function Clean(s: string): (r: string)
    ensures |r| <= |s|
    ensures forall i :: 0 <= i < |r| ==> IsPriceChar(r[i])
  {
    if s == [] then [] else (if IsPriceChar(s[0]) then [s[0]] else []) + Clean(s[1..])
  }

  /** `s.replace(',', '')`. */
  function RemoveCommas(s: string): (r: string)
    ensures |r| <= |s|
    ensures forall i :: 0 <= i < |r| ==> r[i] != ','
  {
    if s == [] then [] else (if s[0] == ',' then [] else [s[0]]) + RemoveCommas(s[1..])
  }

  /** `s.count(c)`. */
  function Occurrences(s: string, c: char): (n: nat)
    ensures n == 0 <==> c !in s
    ensures n <= |s|
  {
    if s == [] then 0 else (if s[0] == c then 1 else 0) + Occurrences(s[1..], c)
  }

  /** The text before the first comma of `t` (all of `t` when it has none): `t.split(',')[0]`. */
  function UpToComma(t: string): (r: string)
    ensures |r| <= |t| && r == t[..|r|]
    ensures ',' !in r
    ensures |r| < |t| ==> t[|r|] == ','
  {
    if t == [] || t[0] == ',' then [] else [t[0]] + UpToComma(t[1..])
  }

  /** `s.split(',')[1]` for text holding a comma: the field between the first comma and the next one
      (or the end). */
  function SecondField(s: string): (r: string)
    requires ',' in s
    ensures ',' !in r
  {
    var k := |UpToComma(s)|;
    UpToComma(s[k + 1..])
  }

  /** The separator rule, branch by branch: with both a comma and a period the commas go ("1,234.56");
      with commas alone, a single comma before exactly three digits goes ("1,234"), and otherwise the
      commas go as well ("1,234,567"); text without a comma is kept. */
  function Normalize(cleaned: string): string
  {
    if ',' in cleaned && '.' in cleaned then RemoveCommas(cleaned)
    else if ',' in cleaned then
      if Occurrences(cleaned, ',') == 1 && |SecondField(cleaned)| == 3 then RemoveCommas(cleaned)
      else RemoveCommas(cleaned)
    else cleaned
  }

  function Pow10(n: nat): (p: nat)
    ensures p >= 1
  {
    if n == 0 then 1 else 10 * Pow10(n - 1)
  }

  /** Python's `float(t)` on the strings that can reach it here (digits and dots only): digits with at
      most one '.', at least one digit; "1." and ".5" are accepted, "." and "1.2.3" are not. */
  function ParseDecimal(t: string): (r: Option<real>)
    ensures r.Some? ==> r.value >= 0.0
  {
    var k := FirstIndexOf(t, '.');
    var whole := t[..k];
    var frac := if k < |t| then t[k + 1..] else "";
    if AllDigits(whole) && AllDigits(frac) && |whole| + |frac| >= 1 then
      Some(DigitsValue(whole) as real + DigitsValue(frac) as real / Pow10(|frac|) as real)
    else
      None
  }

  /** `extract_price_from_text`: empty text gives nothing; a price, when there is one, is strictly
      positive. */
  function ExtractPrice(text: string): (r: Option<real>)
    ensures text == "" ==> r == None
    ensures r.Some? ==> r.value > 0.0
  {
    if text == "" then None
    else
      match ParseDecimal(Normalize(Clean(Strip(text))))
      case None => None
      case Some(p) => if p > 0.0 then Some(p) else None
  }

  /** Whatever separators the text uses, the price is the parse of the cleaned text with every comma
      dropped, kept only when strictly positive. */
  lemma ExtractPriceDropsEveryComma(text: string)
    ensures var p := ParseDecimal(RemoveCommas(Clean(Strip(text))));
      ExtractPrice(text) == if p.Some? && p.value > 0.0 then p else None
  {
    NormalizeRemovesEveryComma(Clean(Strip(text)));
    if text == "" {
      assert Strip(text) == "";
      assert Clean("") == "";
      assert RemoveCommas("") == "";
      assert FirstIndexOf("", '.') == 0;
    }
  }

  /** Cleaning distributes over concatenation: it keeps the price characters in their order. */
  lemma {:induction false} CleanAppend(a: string, b: string)
    ensures Clean(a + b) == Clean(a) + Clean(b)
  {
    if a == [] {
      assert a + b == b;
    } else {
      var head := if IsPriceChar(a[0]) then [a[0]] else [];
      assert (a + b)[0] == a[0];
      assert (a + b)[1..] == a[1..] + b;
      CleanAppend(a[1..], b);
      calc {
        Clean(a + b);
        head + Clean(a[1..] + b);
        head + (Clean(a[1..]) + Clean(b));
        (head + Clean(a[1..])) + Clean(b);
        Clean(a) + Clean(b);
      }
    }
  }

  /** Leading whitespace never reaches the parse. */
  lemma {:induction false} CleanStripLeft(s: string)
    ensures Clean(StripLeft(s)) == Clean(s)
  {
    if s != [] && IsPyWhitespace(s[0]) {
      CleanStripLeft(s[1..]);
    }
  }

  /** Trailing whitespace never reaches the parse. */
  lemma {:induction false} CleanStripRight(s: string)
    ensures Clean(StripRight(s)) == Clean(s)
  {
    if s != [] && IsPyWhitespace(s[|s| - 1]) {
      var init := s[..|s| - 1];
      CleanStripRight(init);
      assert s == init + [s[|s| - 1]];
      CleanAppend(init, [s[|s| - 1]]);
    }
  }

  /** Stripping before cleaning changes nothing: the parse sees the same characters either way. */
  lemma CleanIgnoresStrip(s: string)
    ensures Clean(Strip(s)) == Clean(s)
  {
    CleanStripLeft(s);
    CleanStripRight(StripLeft(s));
  }

  /** Text without commas is left alone by RemoveCommas. */
  lemma {:induction false} RemoveCommasNoComma(s: string)
    requires ',' !in s
    ensures RemoveCommas(s) == s
  {
    if s != [] {
      assert ',' !in s[1..];
      RemoveCommasNoComma(s[1..]);
    }
  }

  /** Whatever the separators, Normalize is "drop every comma": all three branches that see a comma
      agree, and text without one is unchanged by RemoveCommas too. */
  lemma {:induction false} NormalizeRemovesEveryComma(cleaned: string)
    ensures Normalize(cleaned) == RemoveCommas(cleaned)
  {
    if ',' !in cleaned {
      RemoveCommasNoComma(cleaned);
    }
  }

  /** The acceptance rule of `float` on text of digits and periods: a number is read exactly when there
      is at most one '.' and at least one digit. */
  lemma ParseDecimalAccepts(t: string)
    requires forall i :: 0 <= i < |t| ==> IsDigit(t[i]) || t[i] == '.'
    ensures ParseDecimal(t).Some? <==>
      Occurrences(t, '.') <= 1 && exists i :: 0 <= i < |t| && IsDigit(t[i])
  {
    var k := FirstIndexOf(t, '.');
    if k == |t| {
      assert t[..k] == t;
      NoDotDigits(t);
    } else {
      DotAccepts(t, k);
    }
  }

  /** The acceptance rule when the text holds a period, at `k` first. */
  lemma DotAccepts(t: string, k: nat)
    requires forall i :: 0 <= i < |t| ==> IsDigit(t[i]) || t[i] == '.'
    requires k == FirstIndexOf(t, '.') < |t|
    ensures ParseDecimal(t).Some? <==>
      Occurrences(t, '.') <= 1 && exists i :: 0 <= i < |t| && IsDigit(t[i])
  {
    var whole, frac := t[..k], t[k + 1..];
    assert '.' !in whole;
    DotCountAtFirst(t, k);
    DigitsOrDots(whole);
    DigitsOrDots(frac);
    if AllDigits(frac) {
      DigitAroundDot(t, k);
    }
  }

  /** Text of digits without a period is all digits, and holds a digit exactly when it is non-empty. */
  lemma NoDotDigits(t: string)
    requires forall i :: 0 <= i < |t| ==> IsDigit(t[i]) || t[i] == '.'
    requires '.' !in t
    ensures AllDigits(t)
    ensures (exists i :: 0 <= i < |t| && IsDigit(t[i])) <==> |t| >= 1
  {
    if |t| >= 1 {
      assert IsDigit(t[0]);
    }
  }

  /** Around its first '.', text holds one period more than its tail. */
  lemma {:induction false} DotCountAtFirst(t: string, k: nat)
    requires k < |t| && t[k] == '.' && '.' !in t[..k]
    ensures Occurrences(t, '.') == 1 + Occurrences(t[k + 1..], '.')
  {
    if k > 0 {
      assert t[0] == t[..k][0];
      assert t[1..][..k - 1] == t[1..k];
      assert t[1..][k..] == t[k + 1..];
      DotCountAtFirst(t[1..], k - 1);
    }
  }

  /** In text of digits and periods, all digits means no period. */
  lemma DigitsOrDots(s: string)
    requires forall i :: 0 <= i < |s| ==> IsDigit(s[i]) || s[i] == '.'
    ensures AllDigits(s) <==> '.' !in s
  {
    if '.' in s {
      var i :| 0 <= i < |s| && s[i] == '.';
    }
  }

  /** When the tail after the first '.' is all digits, the text holds a digit exactly when the head or
      the tail is non-empty. */
  lemma DigitAroundDot(t: string, k: nat)
    requires k == FirstIndexOf(t, '.') < |t|
    requires AllDigits(t[..k]) && AllDigits(t[k + 1..])
    ensures (exists i :: 0 <= i < |t| && IsDigit(t[i])) <==> k + |t[k + 1..]| >= 1
  {
    var frac := t[k + 1..];
    if k >= 1 {
      assert t[..k][0] == t[0];
    } else if |frac| >= 1 {
      assert frac[0] == t[k + 1];
    }
    if exists i :: 0 <= i < |t| && IsDigit(t[i]) {
      var i :| 0 <= i < |t| && IsDigit(t[i]);
      assert i != k;
      if i > k {
        assert frac[i - k - 1] == t[i];
      }
    }
  }

  /** A plain run of digits parses to its own value: ParseDecimal reads back what `str(n)` writes. */
  lemma ParseDecimalOfNat(n: nat)
    ensures ParseDecimal(NatToString(n)) == Some(n as real)
  {
    var t := NatToString(n);
    assert FirstIndexOf(t, '.') == |t|;
    assert t[..|t|] == t;
    NatToStringRoundTrip(n);
  }

  // Worked examples. Each evaluation step on a literal is its own small lemma so that no single
  // proof has to unfold every helper at once.

  lemma CleanOfRupees() ensures Clean("\U{20B9}1,999") == "1,999" {}
  lemma CleanOfGrouped() ensures Clean("1,234.56") == "1,234.56" {}
  lemma CleanOfFree() ensures Clean("free") == "" {}
  lemma CleanOfRsPrefix() ensures Clean("Rs. 1,999") == ".1,999" {}
  lemma RemoveCommasOfRupees() ensures RemoveCommas("1,999") == "1999" {}
  lemma RemoveCommasOfGrouped() ensures RemoveCommas("1,234.56") == "1234.56" {}
  lemma RemoveCommasOfRsPrefix() ensures RemoveCommas(".1,999") == ".1999" {}

  lemma DigitsOf1999()
    ensures DigitsValue("1999") == 1999
  {
    assert "1999"[..3] == "199";
    assert "199"[..2] == "19";
    assert "19"[..1] == "1";
    assert "1"[..0] == "";
  }

  lemma ParseOf1999()
    ensures ParseDecimal("1999") == Some(1999.0)
  {
    assert FirstIndexOf("1999", '.') == 4;
    assert "1999"[..4] == "1999";
    DigitsOf1999();
  }

  lemma ParseOf1234Point56()
    ensures ParseDecimal("1234.56") == Some(1234.56)
  {
    assert FirstIndexOf("1234.56", '.') == 4;
    assert "1234.56"[..4] == "1234";
    assert "1234.56"[5..] == "56";
    assert "1234"[..3] == "123";
    assert "123"[..2] == "12";
    assert "12"[..1] == "1";
    assert "1"[..0] == "";
    assert "56"[..1] == "5";
    assert "5"[..0] == "";
  }

  lemma ParseOfPoint1999()
    ensures ParseDecimal(".1999") == Some(0.1999)
  {
    assert FirstIndexOf(".1999", '.') == 0;
    assert ".1999"[..0] == "";
    assert ".1999"[1..] == "1999";
    DigitsOf1999();
    assert Pow10(4) == 10000;
  }

  /** "₹1,999" is 1999 (the rupee sign is cleaned away, the comma is grouping). */
  lemma ExampleRupees()
    ensures ExtractPrice("\U{20B9}1,999") == Some(1999.0)
  {
    StripUnpadded("\U{20B9}1,999");
    ExtractPriceDropsEveryComma("\U{20B9}1,999");
    CleanOfRupees();
    RemoveCommasOfRupees();
    ParseOf1999();
  }

  /** "1,234.56" is 1234.56 (comma grouping, period decimal point). */
  lemma ExampleGroupedDecimal()
    ensures ExtractPrice("1,234.56") == Some(1234.56)
  {
    StripUnpadded("1,234.56");
    ExtractPriceDropsEveryComma("1,234.56");
    CleanOfGrouped();
    RemoveCommasOfGrouped();
    ParseOf1234Point56();
  }

  /** "free" has no price characters at all, so it is not a price. */
  lemma ExampleFree()
    ensures ExtractPrice("free") == None
  {
    StripUnpadded("free");
    ExtractPriceDropsEveryComma("free");
    CleanOfFree();
    assert RemoveCommas("") == "";
    assert FirstIndexOf("", '.') == 0;
  }

  /** "Rs. 1,999" keeps the period of "Rs.", which becomes a decimal point: the price read is 0.1999. */
  lemma ExampleRsPrefix()
    ensures ExtractPrice("Rs. 1,999") == Some(0.1999)
  {
    StripUnpadded("Rs. 1,999");
    ExtractPriceDropsEveryComma("Rs. 1,999");
    CleanOfRsPrefix();
    RemoveCommasOfRsPrefix();
    ParseOfPoint1999();
  }
}
