/** Text handling used by the command line: the ECMAScript notion of white space,
    `String.prototype.trim`, `Array.prototype.join(" ")`, the decimal rendering of an
    integer and the subset of `Number(string)` that reads decimal integers. */
module Text {

  /** A character that `trim` strips: ECMAScript WhiteSpace (tab, vertical tab, form feed,
      no-break space, byte order mark and every Unicode space separator) and
      LineTerminator (line feed, carriage return, line and paragraph separators). */
  predicate IsWhitespace(c: char) {
    c == '\t' || c == '\n' || c == '\U{000B}' || c == '\U{000C}' || c == '\r' ||
    c == ' ' || c == '\U{00A0}' || c == '\U{1680}' ||
    ('\U{2000}' <= c <= '\U{200A}') ||
    c == '\U{2028}' || c == '\U{2029}' || c == '\U{202F}' || c == '\U{205F}' ||
    c == '\U{3000}' || c == '\U{FEFF}'
  }

  predicate AllWhitespace(s: string) {
    forall k :: 0 <= k < |s| ==> IsWhitespace(s[k])
  }

  /** The number of white-space characters `s` starts with. */
  function LeadingWhitespace(s: string): (n: nat)
    ensures n <= |s|
    ensures forall k :: 0 <= k < n ==> IsWhitespace(s[k])
    ensures n < |s| ==> !IsWhitespace(s[n])
  {
    if s == [] || !IsWhitespace(s[0]) then 0
    else
      var n := 1 + LeadingWhitespace(s[1..]);
      assert forall k :: 1 <= k < |s| ==> s[k] == s[1..][k - 1];
      n
  }

  /** The number of white-space characters `s` ends with. */
  function TrailingWhitespace(s: string): (n: nat)
    ensures n <= |s|
    ensures forall k :: |s| - n <= k < |s| ==> IsWhitespace(s[k])
    ensures n < |s| ==> !IsWhitespace(s[|s| - n - 1])
  {
    if s == [] || !IsWhitespace(s[|s| - 1]) then 0
    else
      var n := 1 + TrailingWhitespace(s[..|s| - 1]);
      assert forall k :: 0 <= k < |s| - 1 ==> s[k] == s[..|s| - 1][k];
      n
  }

  /** `String.prototype.trim`: nothing is left of text that is white space throughout;
      otherwise what is left neither starts nor ends with white space. */
  function Trim(s: string): (r: string)
    ensures |r| <= |s|
    ensures r == [] <==> AllWhitespace(s)
    ensures r != [] ==> !IsWhitespace(r[0]) && !IsWhitespace(r[|r| - 1])
  {
    var i := LeadingWhitespace(s);
    if i == |s| then []
    else
      var j := |s| - TrailingWhitespace(s);
      assert !IsWhitespace(s[i]);
      s[i..j]
  }

  /** `trim` drops white space only, and only at either end: what it keeps is an infix of
      the text with white space alone before and after it. */
  lemma TrimDropsOnlyWhitespace(s: string)
    ensures exists i, j :: 0 <= i <= j <= |s| && Trim(s) == s[i..j] &&
                           AllWhitespace(s[..i]) && AllWhitespace(s[j..])
  {
    var i := LeadingWhitespace(s);
    if i == |s| {
      assert Trim(s) == s[i..i] && s[i..] == [];
    } else {
      var j := |s| - TrailingWhitespace(s);
      assert !IsWhitespace(s[i]);
      assert Trim(s) == s[i..j];
      assert AllWhitespace(s[..i]) by {
        forall k | 0 <= k < i ensures IsWhitespace(s[..i][k]) { assert s[..i][k] == s[k]; }
      }
      assert AllWhitespace(s[j..]) by {
        forall k | 0 <= k < |s| - j ensures IsWhitespace(s[j..][k]) { assert s[j..][k] == s[j + k]; }
      }
    }
  }

  /** `words.join(" ")`: the words separated by single spaces. */
  function Join(words: seq<string>): (r: string) {
    if |words| == 0 then ""
    else if |words| == 1 then words[0]
    else words[0] + " " + Join(words[1..])
  }

  /** The description built from argument words: `words.join(" ").trim()`. */
  function Description(words: seq<string>): (r: string) {
    Trim(Join(words))
  }

  /** Text is white space throughout exactly when both of its parts are. */
  lemma AllWhitespaceConcat(a: string, b: string)
    ensures AllWhitespace(a + b) <==> AllWhitespace(a) && AllWhitespace(b)
  {
    var ab := a + b;
    if AllWhitespace(ab) {
      forall k | 0 <= k < |a| ensures IsWhitespace(a[k]) { assert a[k] == ab[k]; }
      forall k | 0 <= k < |b| ensures IsWhitespace(b[k]) { assert b[k] == ab[|a| + k]; }
    }
  }

  /** Text that neither starts nor ends with white space is left as it is by `trim`. */
  lemma TrimUnpadded(s: string)
    requires s == [] || (!IsWhitespace(s[0]) && !IsWhitespace(s[|s| - 1]))
    ensures Trim(s) == s
  {
    if s != [] {
      assert LeadingWhitespace(s) == 0 && TrailingWhitespace(s) == 0;
    }
  }

  /** Trimming twice is trimming once. */
  lemma TrimIdempotent(s: string)
    ensures Trim(Trim(s)) == Trim(s)
  {
    TrimUnpadded(Trim(s));
  }

  lemma {:induction false} JoinWhitespace(words: seq<string>)
    ensures AllWhitespace(Join(words)) <==> forall w :: w in words ==> AllWhitespace(w)
  {
    if |words| > 1 {
      JoinWhitespace(words[1..]);
      var a, b := words[0], Join(words[1..]);
      assert Join(words) == a + (" " + b);
      AllWhitespaceConcat(a, " " + b);
      AllWhitespaceConcat(" ", b);
      assert forall w :: w in words <==> w == a || w in words[1..];
    }
  }

  /** The description is empty, and `add`/`update` are refused, exactly when every
      argument word is white space throughout (in particular when there are no words). */
  lemma DescriptionEmptyIff(words: seq<string>)
    ensures Description(words) == [] <==> forall w :: w in words ==> AllWhitespace(w)
  {
    JoinWhitespace(words);
  }

  // ---------------------------------------------------------------------------
  // Decimal numerals

  predicate IsDigit(c: char) {
    '0' <= c <= '9'
  }

  predicate AllDigits(s: string) {
    forall k :: 0 <= k < |s| ==> IsDigit(s[k])
  }

  function DigitChar(d: nat): (c: char)
    requires d < 10
  {
    ['0', '1', '2', '3', '4', '5', '6', '7', '8', '9'][d]
  }

  function DigitValue(c: char): nat
    requires IsDigit(c)
  {
    c as int - '0' as int
  }

  /** The value of a string of decimal digits, most significant first. */
  function DigitsValue(s: string): nat
    requires AllDigits(s)
  {
    if s == [] then 0 else DigitsValue(s[..|s| - 1]) * 10 + DigitValue(s[|s| - 1])
  }

  /** The shortest decimal numeral of `n`. */
  function NatToDecimal(n: nat): (s: string)
    ensures s != [] && AllDigits(s)
    ensures DigitsValue(s) == n
    ensures |s| == 1 || s[0] != '0'
  {
    if n < 10 then
      assert DigitValue(DigitChar(n)) == n;
      [DigitChar(n)]
    else
      var s := NatToDecimal(n / 10) + [DigitChar(n % 10)];
      assert s[..|s| - 1] == NatToDecimal(n / 10);
      assert DigitValue(DigitChar(n % 10)) == n % 10;
      s
  }

  /** A numeral is worth at least its leading digit. */
  lemma {:induction false} LeadingDigitBound(s: string)
    requires s != [] && AllDigits(s)
    ensures DigitsValue(s) >= DigitValue(s[0])
  {
    if |s| > 1 {
      var p := s[..|s| - 1];
      assert p[0] == s[0];
      LeadingDigitBound(p);
    }
  }

  lemma DivModTen(n: nat, a: nat, d: nat)
    requires d < 10 && n == a * 10 + d
    ensures n / 10 == a && n % 10 == d
  {
  }

  /** The decimal rendering is the only numeral of `n` without a leading zero. */
  lemma {:induction false} DecimalUnique(s: string, n: nat)
    requires s != [] && AllDigits(s) && (|s| == 1 || s[0] != '0')
    requires DigitsValue(s) == n
    ensures s == NatToDecimal(n)
  {
    var c := s[|s| - 1];
    var d := DigitValue(c);
    assert DigitChar(d) == c;
    if |s| == 1 {
      assert s == [c];
    } else {
      var p := s[..|s| - 1];
      assert p[0] == s[0];
      LeadingDigitBound(p);
      DivModTen(n, DigitsValue(p), d);
      DecimalUnique(p, n / 10);
      assert s == p + [c];
    }
  }

  /** How a template literal renders an integer: an optional minus sign, then digits. */
  function IntToDecimal(n: int): (s: string) {
    if n < 0 then "-" + NatToDecimal(-n) else NatToDecimal(n)
  }

  /** The outcome of JavaScript's `Number(text)`: a number or NaN. */
  datatype Number = NaN | Num(value: int)

  /** The truthiness of a number: `!id` holds of 0 and of NaN. */
  predicate Truthy(n: Number) {
    n.Num? && n.value != 0
  }

  /** `Number(text)` for integer numerals: white space around the text is ignored, an empty
      or all-white text is 0, one optional sign may precede the digits, and anything else
      is NaN. */
  function ParseNumber(text: string): (r: Number) {
    ParseNumeral(Trim(text))
  }

  /** A trimmed numeral: empty is 0, an optional sign and then at least one digit is an
      integer, anything else NaN. */
  function ParseNumeral(s: string): (r: Number) {
    if s == [] then Num(0)
    else if AllDigits(s) then Num(DigitsValue(s))
    else if |s| > 1 && AllDigits(s[1..]) && s[0] == '-' then Num(-(DigitsValue(s[1..]) as int))
    else if |s| > 1 && AllDigits(s[1..]) && s[0] == '+' then Num(DigitsValue(s[1..]))
    else NaN
  }

  /** A decimal rendering is a minus sign or digits, character by character. */
  lemma RenderedCharacters(n: int)
    ensures forall k :: 0 <= k < |IntToDecimal(n)| ==> IntToDecimal(n)[k] == '-' || IsDigit(IntToDecimal(n)[k])
  {
    var s := IntToDecimal(n);
    var d := NatToDecimal(if n < 0 then -n else n);
    forall k | 0 <= k < |s| ensures s[k] == '-' || IsDigit(s[k]) {
      if n < 0 && k > 0 {
        assert s[k] == d[k - 1];
      }
    }
  }

  /** An integer rendered in decimal reads back as the same number. */
  lemma ParseRendered(n: int)
    ensures ParseNumber(IntToDecimal(n)) == Num(n)
  {
    var s := IntToDecimal(n);
    RenderedCharacters(n);
    assert !IsWhitespace(s[0]) && !IsWhitespace(s[|s| - 1]);
    TrimUnpadded(s);
    if n < 0 {
      assert s[1..] == NatToDecimal(-n);
      assert !IsDigit(s[0]);
    }
  }
}
