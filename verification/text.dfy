/**
 * Text helpers used by the command validator: the `Option` result type,
 * lower-casing of command words, and the decimal integer parser that stands
 * in for Python's `int()` on a single whitespace-free token.
 */
module Text {

  /** Present (`Some`) or absent (`None`) value. */
  datatype Option<T> = None | Some(value: T)

  // ---------------------------------------------------------------------------
  // Lower-casing
  // ---------------------------------------------------------------------------

  /** Upper-case letters this model lower-cases: ASCII A-Z and the basic Cyrillic capitals U+0400..U+042F. */
  predicate IsUpper(c: char) {
    ('A' <= c <= 'Z') || ('\U{0400}' <= c <= '\U{042F}')
  }

  /** The lower-case partner of one character; characters that are not upper-case map to themselves. */
  function LowerChar(c: char): (r: char)
    ensures IsUpper(c) ==> r != c && !IsUpper(r)
    ensures !IsUpper(c) ==> r == c
  {
    if 'A' <= c <= 'Z' then (c as int + 32) as char
    else if '\U{0410}' <= c <= '\U{042F}' then (c as int + 32) as char   // А..Я -> а..я
    else if '\U{0400}' <= c <= '\U{040F}' then (c as int + 80) as char   // Ѐ..Џ (Ё among them) -> ѐ..џ
    else c
  }

  /** `str.lower()` restricted to the letters of `IsUpper`: position-wise lower-casing. */
  function Lower(s: string): (r: string)
    ensures |r| == |s|
    ensures forall i :: 0 <= i < |s| ==> r[i] == LowerChar(s[i])
    ensures forall i :: 0 <= i < |r| ==> !IsUpper(r[i])
  {
    seq(|s|, i requires 0 <= i < |s| => LowerChar(s[i]))
  }

  /** A string with no upper-case letter is its own lower-case form. */
  lemma LowerOfLowerCase(s: string)
    requires forall i :: 0 <= i < |s| ==> !IsUpper(s[i])
    ensures Lower(s) == s
  {
  }

  /** Lower-casing twice is lower-casing once. */
  lemma LowerIdempotent(s: string)
    ensures Lower(Lower(s)) == Lower(s)
  {
    LowerOfLowerCase(Lower(s));
  }

  // ---------------------------------------------------------------------------
  // Decimal integers
  // ---------------------------------------------------------------------------

  predicate IsDigit(c: char) {
    '0' <= c <= '9'
  }

  /**
   * The digits of a base-10 literal as `int()` accepts them: a leading digit,
   * then digits, where a single `_` may separate two digits.
   */
  predicate IsDecimal(s: string) {
    && |s| > 0
    && IsDigit(s[0])
    && DigitsOrSeparators(s)
    && forall i :: 0 <= i < |s| && s[i] == '_' ==> i + 1 < |s| && IsDigit(s[i + 1])
  }

  /** Every character is a digit or an underscore. */
  predicate DigitsOrSeparators(s: string) {
    forall i :: 0 <= i < |s| ==> IsDigit(s[i]) || s[i] == '_'
  }

  /** The value of a run of digits and underscores; underscores carry no value. */
  function DecimalValue(s: string): nat
    requires DigitsOrSeparators(s)
  {
    if |s| == 0 then 0
    else
      var last := s[|s| - 1];
      assert IsDigit(last) || last == '_';
      if last == '_' then DecimalValue(s[..|s| - 1])
      else 10 * DecimalValue(s[..|s| - 1]) + (last as int - '0' as int)
  }

  /**
   * Most digits `int()` converts from decimal text: the default of
   * `sys.get_int_max_str_digits()` in Python 3.11 and later, and in the
   * 3.10.7, 3.9.14, 3.8.14 and 3.7.14 security releases. A longer literal
   * raises `ValueError`.
   */
  const MaxIntDigits: nat := 4300

  /** Number of digit characters in `s`; underscores do not count. */
  function DigitCount(s: string): (r: nat)
    ensures r <= |s|
  {
    if |s| == 0 then 0
    else DigitCount(s[..|s| - 1]) + (if IsDigit(s[|s| - 1]) then 1 else 0)
  }

  /** A string made only of digits has as many digits as characters. */
  lemma {:induction false} DigitCountOfDigits(s: string)
    requires forall i :: 0 <= i < |s| ==> IsDigit(s[i])
    ensures DigitCount(s) == |s|
  {
    if |s| > 0 {
      DigitCountOfDigits(s[..|s| - 1]);
    }
  }

  /** A decimal literal short enough for `int()` to convert. */
  predicate IsConvertible(s: string) {
    IsDecimal(s) && DigitCount(s) <= MaxIntDigits
  }

  /**
   * `int(token)` for a whitespace-free token: an optional `+` or `-` sign
   * followed by a decimal literal of at most `MaxIntDigits` digits; anything
   * else is `None` (Python raises).
   */
  function ParseInt(s: string): (r: Option<int>)
    ensures r.Some? ==> |s| > 0 && (IsDigit(s[0]) || s[0] == '+' || s[0] == '-')
    ensures r.Some? && r.value < 0 ==> s[0] == '-'
    ensures r.Some? ==> DigitCount(s) <= MaxIntDigits
  {
    if |s| > 0 && (s[0] == '+' || s[0] == '-') then
      if IsConvertible(s[1..]) then
        SignNotCounted(s);
        var magnitude: int := DecimalValue(s[1..]);
        Some(if s[0] == '-' then -magnitude else magnitude)
      else None
    else if IsConvertible(s) then Some(DecimalValue(s))
    else None
  }

  /** A leading sign adds nothing to the digit count. */
  lemma SignNotCounted(s: string)
    requires |s| > 0 && !IsDigit(s[0])
    ensures DigitCount(s) == DigitCount(s[1..])
    decreases |s|
  {
    if |s| > 1 {
      assert s[..|s| - 1][1..] == s[1..][..|s| - 2];
      SignNotCounted(s[..|s| - 1]);
    }
  }

  /** The digit character of a value below ten. */
  function DigitChar(d: nat): (c: char)
    requires d < 10
    ensures IsDigit(c) && c as int - '0' as int == d
  {
    ('0' as int + d) as char
  }

  /** Canonical decimal text of a natural number, most significant digit first. */
  function ShowNat(n: nat): (s: string)
    ensures |s| > 0
    ensures forall i :: 0 <= i < |s| ==> IsDigit(s[i])
    decreases n
  {
    if n < 10 then [DigitChar(n)] else ShowNat(n / 10) + [DigitChar(n % 10)]
  }

  /** Canonical decimal text of an integer, with a `-` sign when negative. */
  function ShowInt(i: int): string {
    if i < 0 then "-" + ShowNat(-i) else ShowNat(i)
  }

  /** Reading back the canonical text of a natural number gives the number. */
  lemma {:induction false} DecimalValueOfShowNat(n: nat)
    ensures IsDecimal(ShowNat(n))
    ensures DecimalValue(ShowNat(n)) == n
    decreases n
  {
    var s := ShowNat(n);
    if n >= 10 {
      DecimalValueOfShowNat(n / 10);
      assert s[..|s| - 1] == ShowNat(n / 10);
    }
  }

  /** An unsigned decimal literal parses to its value when it is short enough, and is refused otherwise. */
  lemma ParseUnsigned(s: string)
    requires IsDecimal(s)
    ensures ParseInt(s) == if DigitCount(s) <= MaxIntDigits then Some(DecimalValue(s)) else None
  {
    assert IsDigit(s[0]);
  }

  /** A `-` followed by a decimal literal parses to the negated value under the same length limit. */
  lemma ParseNegative(s: string)
    requires IsDecimal(s)
    ensures ParseInt("-" + s) == if DigitCount(s) <= MaxIntDigits then Some(0 - DecimalValue(s)) else None
  {
    assert ("-" + s)[1..] == s;
  }

  /** Magnitude of an integer. */
  function Abs(i: int): nat {
    if i < 0 then -i else i
  }

  /** The text of a natural number, read back. */
  lemma ParseShowNat(n: nat)
    ensures ParseInt(ShowNat(n)) == if |ShowNat(n)| <= MaxIntDigits then Some(n) else None
  {
    DigitCountOfDigits(ShowNat(n));
    DecimalValueOfShowNat(n);
    ParseUnsigned(ShowNat(n));
  }

  /** The text of a negative number, read back. */
  lemma ParseShowNegative(n: nat)
    requires n > 0
    ensures ParseInt("-" + ShowNat(n)) == if |ShowNat(n)| <= MaxIntDigits then Some(0 - n) else None
  {
    DigitCountOfDigits(ShowNat(n));
    DecimalValueOfShowNat(n);
    ParseNegative(ShowNat(n));
  }

  /**
   * `ParseInt` inverts `ShowInt` on every integer of at most `MaxIntDigits`
   * digits, and refuses the text of every longer one.
   */
  lemma ParseShowInt(i: int)
    ensures |ShowNat(Abs(i))| <= MaxIntDigits ==> ParseInt(ShowInt(i)) == Some(i)
    ensures |ShowNat(Abs(i))| > MaxIntDigits ==> ParseInt(ShowInt(i)) == None
  {
    if i < 0 {
      ParseShowNegative(-i);
    } else {
      ParseShowNat(i);
    }
  }
}
