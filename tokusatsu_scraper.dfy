/** src/scrapers/tokusatsu_scraper.rs, `extract_year`: the year a series summary mentions, found by a
  * leftmost search for four digits starting with 19 or 20, with no word boundaries. The regular
  * expression search is modelled as a scan from the left. Its `\d` is the Unicode decimal-digit
  * class, while the parse of the match into a `u32` accepts ASCII digits only, so a leftmost match
  * holding another script's digits gives 0. */
module TokusatsuScraper {
  import opened Wrappers
  import opened Strings

  /** The code points of the digit zero of every Unicode decimal-digit block (general category Nd,
    * Unicode 15.0) other than ASCII; each block is the ten code points from its zero on. */
  const OtherDigitZeros: seq<int> := [ArabicIndicZero] + LaterDigitZeros

  /** ARABIC-INDIC DIGIT ZERO, the first block after ASCII. */
  const ArabicIndicZero: int := 0x660

  /** The zeros of the remaining blocks, in code-point order. */
  const LaterDigitZeros: seq<int> := [
    0x6F0, 0x7C0, 0x966, 0x9E6, 0xA66, 0xAE6, 0xB66, 0xBE6, 0xC66,
    0xCE6, 0xD66, 0xDE6, 0xE50, 0xED0, 0xF20, 0x1040, 0x1090, 0x17E0, 0x1810,
    0x1946, 0x19D0, 0x1A80, 0x1A90, 0x1B50, 0x1BB0, 0x1C40, 0x1C50, 0xA620, 0xA8D0,
    0xA900, 0xA9D0, 0xA9F0, 0xAA50, 0xABF0, 0xFF10, 0x104A0, 0x10D30, 0x11066, 0x110F0,
    0x11136, 0x111D0, 0x112F0, 0x11450, 0x114D0, 0x11650, 0x116C0, 0x11730, 0x118E0, 0x11950,
    0x11C50, 0x11D50, 0x11DA0, 0x11F50, 0x16A60, 0x16AC0, 0x16B50, 0x1D7CE, 0x1D7D8, 0x1D7E2,
    0x1D7EC, 0x1D7F6, 0x1E140, 0x1E2F0, 0x1E4F0, 0x1E950, 0x1FBF0
  ]

  /** `\d` of the regular expression: a Unicode decimal digit, ASCII or of another script. */
  predicate IsDecimalDigit(c: char) {
    IsDigit(c)
    || (c as int >= 0x660
        && exists k :: 0 <= k < |OtherDigitZeros| && OtherDigitZeros[k] <= c as int < OtherDigitZeros[k] + 10)
  }

  /** Below the first non-ASCII digit block `\d` means the ASCII digits. */
  lemma LowDecimalDigits(c: char)
    requires c as int < 0x660
    ensures IsDecimalDigit(c) <==> IsDigit(c)
  {
  }

  /** A match of the year pattern starts at `i`: "19" or "20" followed by two decimal digits. */
  predicate YearAt(s: string, i: nat) {
    i + 4 <= |s|
    && ((s[i] == '1' && s[i + 1] == '9') || (s[i] == '2' && s[i + 1] == '0'))
    && IsDecimalDigit(s[i + 2]) && IsDecimalDigit(s[i + 3])
  }

  /** A match that `parse::<u32>` accepts: its last two digits are ASCII too. */
  predicate AsciiYearAt(s: string, i: nat) {
    YearAt(s, i) && IsDigit(s[i + 2]) && IsDigit(s[i + 3])
  }

  /** The value of four decimal digits. */
  lemma FourDigits(t: string)
    requires |t| == 4 && AllDigits(t)
    ensures DigitsValue(t) ==
      1000 * DigitValue(t[0]) + 100 * DigitValue(t[1]) + 10 * DigitValue(t[2]) + DigitValue(t[3])
  {
    assert t[..1][..0] == [] && t[..2][..1] == t[..1] && t[..3][..2] == t[..2] && t[..4][..3] == t[..3];
    assert DigitsValue(t[..1]) == DigitValue(t[0]);
    assert DigitsValue(t[..2]) == 10 * DigitValue(t[0]) + DigitValue(t[1]);
    assert DigitsValue(t[..3]) == 100 * DigitValue(t[0]) + 10 * DigitValue(t[1]) + DigitValue(t[2]);
    assert t[..4] == t;
  }

  /** The number a match spells: the century is the one the first two characters name. */
  function YearValue(s: string, i: nat): (y: nat)
    requires AsciiYearAt(s, i)
    ensures s[i] == '1' ==> 1900 <= y <= 1999
    ensures s[i] == '2' ==> 2000 <= y <= 2099
    ensures y % 100 == 10 * DigitValue(s[i + 2]) + DigitValue(s[i + 3])
  {
    var t := s[i..i + 4];
    assert AllDigits(t);
    FourDigits(t);
    DigitsValue(t)
  }

  /** The leftmost match at or after `i`. */
  function FindYear(s: string, i: nat): (r: Option<nat>)
    requires i <= |s|
    ensures r.Some? ==> i <= r.value && YearAt(s, r.value)
    ensures r.Some? ==> forall j: nat :: i <= j < r.value ==> !YearAt(s, j)
    ensures r.None? ==> forall j: nat :: i <= j ==> !YearAt(s, j)
    decreases |s| - i
  {
    if i + 4 > |s| then None
    else if YearAt(s, i) then Some(i)
    else FindYear(s, i + 1)
  }

  /** `extract_year`: the value of the leftmost match; 0 when the text has none, and 0 when the
    * leftmost match holds a digit of another script, which the `u32` parse rejects. */
  function ExtractYear(text: string): (y: nat)
    ensures y == 0 || 1900 <= y <= 2099
    ensures y != 0 <==> exists i: nat :: AsciiYearAt(text, i) && forall j: nat :: j < i ==> !YearAt(text, j)
    ensures y != 0 ==> exists i: nat ::
      AsciiYearAt(text, i) && y == YearValue(text, i) && (forall j: nat :: j < i ==> !YearAt(text, j))
  {
    match FindYear(text, 0)
    case None => 0
    case Some(i) => if IsDigit(text[i + 2]) && IsDigit(text[i + 3]) then YearValue(text, i) else 0
  }

  /** A text without a match gives 0. */
  lemma NoMatchNoYear(text: string)
    requires forall j: nat :: !YearAt(text, j)
    ensures ExtractYear(text) == 0
  {
  }

  /** Text in front of a year that holds no match of its own leaves the year found. */
  lemma {:induction false} YearAfterPlainPrefix(prefix: string, rest: string)
    requires forall j: nat :: j < |prefix| ==> !YearAt(prefix + rest, j)
    requires AsciiYearAt(rest, 0)
    ensures ExtractYear(prefix + rest) == YearValue(rest, 0)
  {
    var s := prefix + rest;
    assert s[|prefix|..|prefix| + 4] == rest[..4];
    assert AsciiYearAt(s, |prefix|);
    var i: nat :| AsciiYearAt(s, i) && ExtractYear(s) == YearValue(s, i) && forall j: nat :: j < i ==> !YearAt(s, j);
    if i < |prefix| {
      assert !YearAt(s, i);
    }
  }

  /** No word boundary is required: the year inside "12019" is found. */
  lemma YearInsideNumber()
    ensures ExtractYear("12019") == 2019
  {
    var s := "12019";
    assert !YearAt(s, 0);
    assert YearAt(s, 1);
    assert s[1..5] == "2019";
    assert DigitsValue(s[1..5]) == 2019 by {
      FourDigits(s[1..5]);
    }
  }

  /** A year before 1900 is not one: "1800" gives 0. */
  lemma NineteenthCenturyIgnored()
    ensures ExtractYear("1800") == 0
  {
    var s := "1800";
    forall j ensures !YearAt(s, j) {
      if j == 0 {
        assert s[1] == '8';
      }
    }
  }

  /** The leftmost year wins: "in 1971 and 2024" gives 1971. */
  lemma LeftmostYearWins()
    ensures ExtractYear("in 1971 and 2024") == 1971
  {
    var s := "in 1971 and 2024";
    assert !YearAt(s, 0) && !YearAt(s, 1) && !YearAt(s, 2) && YearAt(s, 3);
    assert FindYear(s, 0) == Some(3);
    FourDigits(s[3..7]);
  }

  /** "19" followed by the Arabic-Indic digits three and four, then " 2024". */
  const ArabicIndicThenAscii: string := "19\U{0663}\U{0664} 2024"

  /** `\d` matches other scripts' digits but the `u32` parse does not: the leftmost match of
    * "19٣٤ 2024" is "19٣٤", whose parse fails, so the year is 0 although "2024" follows. */
  lemma OtherScriptDigitsGiveZero()
    ensures YearAt(ArabicIndicThenAscii, 0) && !AsciiYearAt(ArabicIndicThenAscii, 0)
    ensures AsciiYearAt(ArabicIndicThenAscii, 5)
    ensures ExtractYear(ArabicIndicThenAscii) == 0
  {
    var s := ArabicIndicThenAscii;
    assert s[2] as int == 0x663 && s[3] as int == 0x664;
    assert OtherDigitZeros[0] == ArabicIndicZero;
    assert IsDecimalDigit(s[2]) && IsDecimalDigit(s[3]);
    assert FindYear(s, 0) == Some(0);
  }
}
