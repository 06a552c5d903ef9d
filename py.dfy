/**
 * Python built-ins the filters and scripts rely on: exceptions as values,
 * the character classes and case mappings of `str` methods (for code points
 * U+0000..U+00FF), whitespace splitting and stripping, `str(int)`, and the
 * anchored digit patterns matched with `re.match`.
 *
 * Number parsing, fixed-point formatting and ISO timestamp parsing stay
 * abstract: they are the fields of a `Numerics` value supplied by the caller.
 */
module Py {

  datatype Option<+T> = None | Some(value: T)

  /** The exception classes the modelled code can raise. */
  datatype Exc = KeyError | TypeError | AttributeError | ValueError | IndexError | ZeroDivisionError

  /** The outcome of evaluating a Python expression: a value, or a raised exception. */
  datatype Result<+T> = Ok(value: T) | Raise(exc: Exc) {
    predicate IsFailure() { Raise? }

    function PropagateFailure<U>(): Result<U>
      requires Raise?
    {
      Raise(exc)
    }

    function Extract(): T
      requires Ok?
    {
      value
    }
  }

  /**
   * The numeric text conversions the model does not define: `float(s)` and
   * `int(s)` on a string (None where Python raises ValueError), the
   * `f"{x:.5f}"` format, and whether `datetime.fromisoformat(s)` accepts `s`.
   */
  datatype Numerics = Numerics(
    parseFloat: string -> Option<real>,
    parseInt: string -> Option<int>,
    format5: real -> string,
    isIsoTimestamp: string -> bool)

  // ---------------------------------------------------------------------
  // Character classes (str.isspace, isalpha, isalnum, the regex \d)

  predicate IsSpace(c: char) {
    var n := c as int;
    n == 32 || 9 <= n <= 13 || 28 <= n <= 31 || n == 0x85 || n == 0xA0
  }

  predicate IsUpper(c: char) {
    var n := c as int;
    65 <= n <= 90 || (0xC0 <= n <= 0xDE && n != 0xD7)
  }

  predicate IsLower(c: char) {
    var n := c as int;
    97 <= n <= 122 || (0xDF <= n <= 0xFF && n != 0xF7)
  }

  predicate IsAlpha(c: char) {
    var n := c as int;
    IsUpper(c) || IsLower(c) || n == 0xAA || n == 0xB5 || n == 0xBA
  }

  /** What the regex class `\d` matches in this range. */
  predicate IsDigit(c: char) {
    '0' <= c <= '9'
  }

  predicate IsNumeric(c: char) {
    var n := c as int;
    IsDigit(c) || n == 0xB2 || n == 0xB3 || n == 0xB9 || n == 0xBC || n == 0xBD || n == 0xBE
  }

  predicate IsAlnum(c: char) {
    IsAlpha(c) || IsNumeric(c)
  }

  /** `s.isalpha()`: non-empty and every character a letter. */
  predicate StrIsAlpha(s: string) {
    |s| > 0 && forall k :: 0 <= k < |s| ==> IsAlpha(s[k])
  }

  predicate AllDigits(s: string) {
    forall k :: 0 <= k < |s| ==> IsDigit(s[k])
  }

  // ---------------------------------------------------------------------
  // Case mapping (str.upper, lower, capitalize)

  function UpperChar(c: char): (u: char)
    ensures IsLower(c) && c as int != 0xDF && c as int != 0xFF ==> u as int == c as int - 32
    ensures !IsLower(c) ==> u == c
  {
    var n := c as int;
    if 97 <= n <= 122 || (0xE0 <= n <= 0xFE && n != 0xF7) then (n - 32) as char else c
  }

  function LowerChar(c: char): (l: char)
    ensures IsUpper(c) ==> l as int == c as int + 32
    ensures !IsUpper(c) ==> l == c
  {
    var n := c as int;
    if IsUpper(c) then (n + 32) as char else c
  }

  function Upper(s: string): (r: string)
    ensures |r| == |s|
    ensures forall k :: 0 <= k < |s| ==> r[k] == UpperChar(s[k])
  {
    if s == [] then [] else [UpperChar(s[0])] + Upper(s[1..])
  }

  function Lower(s: string): (r: string)
    ensures |r| == |s|
    ensures forall k :: 0 <= k < |s| ==> r[k] == LowerChar(s[k])
  {
    if s == [] then [] else [LowerChar(s[0])] + Lower(s[1..])
  }

  /** `s.capitalize()`: first character upper-cased, the rest lower-cased. */
  function Capitalize(s: string): (r: string)
    ensures |r| == |s|
    ensures |s| > 0 ==> r[0] == UpperChar(s[0])
    ensures forall k :: 0 < k < |s| ==> r[k] == LowerChar(s[k])
  {
    if s == [] then [] else [UpperChar(s[0])] + Lower(s[1..])
  }

  /** `s.replace(a, b)` for single characters. */
  function ReplaceChar(s: string, a: char, b: char): (r: string)
    ensures |r| == |s|
    ensures forall k :: 0 <= k < |s| ==> r[k] == (if s[k] == a then b else s[k])
  {
    if s == [] then [] else [if s[0] == a then b else s[0]] + ReplaceChar(s[1..], a, b)
  }

  // ---------------------------------------------------------------------
  // Whitespace: str.strip() and str.split() with no argument

  /** Number of leading whitespace characters. */
  function LeadingSpaces(s: string): (n: nat)
    ensures n <= |s|
    ensures forall k :: 0 <= k < n ==> IsSpace(s[k])
    ensures n < |s| ==> !IsSpace(s[n])
  {
    if s == [] || !IsSpace(s[0]) then 0 else 1 + LeadingSpaces(s[1..])
  }

  /** Number of trailing whitespace characters. */
  function TrailingSpaces(s: string): (n: nat)
    ensures n <= |s|
    ensures forall k :: |s| - n <= k < |s| ==> IsSpace(s[k])
    ensures n < |s| ==> !IsSpace(s[|s| - n - 1])
  {
    if s == [] || !IsSpace(s[|s| - 1]) then 0 else 1 + TrailingSpaces(s[..|s| - 1])
  }

  /** Neither starts nor ends with whitespace. */
  predicate Stripped(s: string) {
    s == [] || (!IsSpace(s[0]) && !IsSpace(s[|s| - 1]))
  }

  /** Every character before `i` and from `j` on is whitespace. */
  predicate SpaceOutside(s: string, i: nat, j: nat)
  {
    && (forall k :: 0 <= k < i && k < |s| ==> IsSpace(s[k]))
    && (forall k :: j <= k < |s| ==> IsSpace(s[k]))
  }

  /**
   * `s.strip()`: the input with its leading and trailing whitespace removed,
   * and nothing else.
   */
  function Strip(s: string): (r: string)
    ensures Stripped(r)
    ensures exists i, j :: 0 <= i <= j <= |s| && r == s[i..j] && SpaceOutside(s, i, j)
    ensures (forall k :: 0 <= k < |s| ==> IsSpace(s[k])) <==> r == []
  {
    var i := LeadingSpaces(s);
    var t := s[i..];
    var j := TrailingSpaces(t);
    assert t[..|t| - j] == s[i..|s| - j];
    if t[..|t| - j] == [] then
      assert i == |s|;
      []
    else
      assert forall k :: |s| - j <= k < |s| ==> IsSpace(s[k]) by {
        forall k | |s| - j <= k < |s| ensures IsSpace(s[k]) { assert s[k] == t[k - i]; }
      }
      assert !IsSpace(s[i]);
      t[..|t| - j]
  }

  /** Number of leading non-whitespace characters. */
  function WordLength(s: string): (n: nat)
    ensures n <= |s|
    ensures forall k :: 0 <= k < n ==> !IsSpace(s[k])
    ensures n < |s| ==> IsSpace(s[n])
  {
    if s == [] || IsSpace(s[0]) then 0 else 1 + WordLength(s[1..])
  }

  predicate IsWord(w: string) {
    |w| > 0 && forall k :: 0 <= k < |w| ==> !IsSpace(w[k])
  }

  /** `s.split()`: the maximal runs of non-whitespace characters, in order. */
  function SplitWs(s: string): (r: seq<string>)
    ensures forall k :: 0 <= k < |r| ==> IsWord(r[k])
    decreases |s|
  {
    var t := s[LeadingSpaces(s)..];
    if t == [] then []
    else
      var n := WordLength(t);
      [t[..n]] + SplitWs(t[n..])
  }

  /** `w` is a run of `s` starting at `i`, with only whitespace before it and none right after it. */
  predicate FirstWordAt(s: string, i: nat, w: string)
  {
    && i + |w| <= |s| && s[i..i + |w|] == w
    && (forall k :: 0 <= k < i ==> IsSpace(s[k]))
    && (i + |w| == |s| || IsSpace(s[i + |w|]))
  }

  /**
   * `s.split()[0]`: the first maximal run of non-whitespace characters,
   * raising IndexError when the text is all whitespace.
   */
  function FirstToken(s: string): (r: Result<string>)
    ensures r.Raise? <==> forall k :: 0 <= k < |s| ==> IsSpace(s[k])
    ensures r.Raise? ==> r.exc == IndexError
    ensures r.Ok? ==> IsWord(r.value) && exists i: nat :: FirstWordAt(s, i, r.value)
  {
    var ws := SplitWs(s);
    var i := LeadingSpaces(s);
    var t := s[i..];
    if |ws| == 0 then
      assert t == [];
      Raise(IndexError)
    else
      assert t != [];
      var n := WordLength(t);
      assert ws[0] == t[..n] == s[i..i + n];
      assert !IsSpace(s[i]);
      assert i + n < |s| ==> IsSpace(s[i + n]) by { if i + n < |s| { assert s[i + n] == t[n]; } }
      assert FirstWordAt(s, i, ws[0]);
      Ok(ws[0])
  }

  /** `FirstToken` is the first element of `SplitWs`, raising IndexError when there is none. */
  lemma FirstTokenSplit(s: string)
    ensures FirstToken(s) == if |SplitWs(s)| == 0 then Raise(IndexError) else Ok(SplitWs(s)[0])
  {
  }

  // ---------------------------------------------------------------------
  // str(int) and the anchored patterns ^\d{n}$

  function DigitChar(d: nat): (c: char)
    requires d < 10
    ensures IsDigit(c)
  {
    ('0' as int + d) as char
  }

  function Pow10(k: nat): (p: nat)
    ensures p >= 1
  {
    if k == 0 then 1 else 10 * Pow10(k - 1)
  }

  /** Decimal digits of `n`, without leading zeros ("0" for zero). */
  function Decimal(n: nat): (s: string)
    ensures |s| >= 1 && AllDigits(s)
  {
    if n < 10 then [DigitChar(n)] else Decimal(n / 10) + [DigitChar(n % 10)]
  }

  /** `str(i)` for an int. */
  function IntToStr(i: int): (s: string)
    ensures i < 0 ==> |s| > 0 && s[0] == '-'
    ensures i >= 0 ==> s == Decimal(i)
  {
    if i < 0 then "-" + Decimal(-i) else Decimal(i)
  }

  lemma {:induction false} DecimalLength(n: nat, k: nat)
    requires k >= 1
    ensures |Decimal(n)| <= k <==> n < Pow10(k)
  {
    if n >= 10 {
      if k >= 2 {
        DecimalLength(n / 10, k - 1);
      } else {
        assert |Decimal(n)| >= 2 by { assert Decimal(n) == Decimal(n / 10) + [DigitChar(n % 10)]; }
      }
    }
  }

  /** Decimal(n) has exactly k digits iff 10^(k-1) <= n < 10^k. */
  lemma DecimalExactLength(n: nat, k: nat)
    requires k >= 2
    ensures |Decimal(n)| == k <==> Pow10(k - 1) <= n < Pow10(k)
  {
    DecimalLength(n, k);
    DecimalLength(n, k - 1);
  }

  /**
   * `re.match(r'^\d{n}$', s)`: exactly n digits, where Python's `$` also
   * accepts one newline right at the end.
   */
  predicate MatchesDigits(s: string, n: nat) {
    (|s| == n && AllDigits(s))
    || (|s| == n + 1 && s[n] == '\n' && AllDigits(s[..n]))
  }

  /** `re.match(r'^\d{6}$', str(i))` holds exactly for the six-digit integers. */
  lemma IntMatchesSixDigits(i: int)
    ensures MatchesDigits(IntToStr(i), 6) <==> 100000 <= i <= 999999
  {
    if i >= 0 {
      DecimalExactLength(i, 6);
      assert Pow10(5) == 100000 && Pow10(6) == 1000000;
      var s := Decimal(i);
      if |s| == 7 { assert IsDigit(s[6]); }
    } else {
      var s := IntToStr(i);
      assert !IsDigit(s[0]);
    }
  }

  /** `re.match(r'^\d{5}$', str(i))` holds exactly for the five-digit integers. */
  lemma IntMatchesFiveDigits(i: int)
    ensures MatchesDigits(IntToStr(i), 5) <==> 10000 <= i <= 99999
  {
    if i >= 0 {
      DecimalExactLength(i, 5);
      assert Pow10(4) == 10000 && Pow10(5) == 100000;
      var s := Decimal(i);
      if |s| == 6 { assert IsDigit(s[5]); }
    } else {
      var s := IntToStr(i);
      assert !IsDigit(s[0]);
    }
  }

  // ---------------------------------------------------------------------
  // The localisation pattern ^-?\d+\.\d+,-?\d+\.\d+$

  /** Index of the first occurrence of `c` in `s`. */
  function IndexOf(s: string, c: char): (r: Option<nat>)
    ensures r.Some? ==> r.value < |s| && s[r.value] == c && forall k :: 0 <= k < r.value ==> s[k] != c
    ensures r.None? ==> forall k :: 0 <= k < |s| ==> s[k] != c
  {
    if s == [] then None
    else if s[0] == c then Some(0)
    else match IndexOf(s[1..], c)
      case None => None
      case Some(k) => Some(k + 1)
  }

  /** `\d+\.\d+` */
  predicate IsUnsignedDecimal(s: string) {
    match IndexOf(s, '.')
    case None => false
    case Some(p) => p > 0 && p + 1 < |s| && AllDigits(s[..p]) && AllDigits(s[p + 1..])
  }

  /** `-?\d+\.\d+` */
  predicate IsCoordinate(s: string) {
    if |s| > 0 && s[0] == '-' then IsUnsignedDecimal(s[1..]) else IsUnsignedDecimal(s)
  }

  predicate IsCoordinatePair(s: string) {
    match IndexOf(s, ',')
    case None => false
    case Some(p) => IsCoordinate(s[..p]) && IsCoordinate(s[p + 1..])
  }

  /** `re.match(r'^-?\d+\.\d+,-?\d+\.\d+$', s)` */
  predicate MatchesLocalisation(s: string) {
    IsCoordinatePair(s) || (|s| > 0 && s[|s| - 1] == '\n' && IsCoordinatePair(s[..|s| - 1]))
  }

  /** `int(x)` on a float truncates toward zero. */
  function TruncateReal(x: real): (i: int)
    ensures x >= 0.0 ==> i as real <= x < i as real + 1.0
    ensures x < 0.0 ==> i as real - 1.0 < x <= i as real
  {
    if x >= 0.0 then x.Floor else -((-x).Floor)
  }
}
