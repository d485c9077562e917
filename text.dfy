/**
 * The JavaScript string operations the storefront's handlers use, on `seq<char>`:
 * `replace(/\D/g, '')`, `substring(0, n)`, `slice(-n)`, `toUpperCase`, `toLowerCase`,
 * `trim() === ''`, `includes`, the truthiness of a string in `a || b`, and the decimal
 * printing of a number inside a template literal.
 */
module Text {

  import opened Lists

  predicate IsDigit(c: char) {
    '0' <= c <= '9'
  }

  predicate AllDigits(s: string) {
    forall i :: 0 <= i < |s| ==> IsDigit(s[i])
  }

  /** `s.replace(/\D/g, '')`: every character that is not an ASCII digit is dropped. */
  function DigitsOnly(s: string): (r: string)
    ensures AllDigits(r)
    ensures |r| <= |s|
    ensures AllDigits(s) ==> r == s
  {
    if s == [] then []
    else (if IsDigit(s[0]) then [s[0]] else []) + DigitsOnly(s[1..])
  }

  /** Stripping the non-digits is filtering on `IsDigit`: every digit of the input survives, in
      its original order, and nothing else does. */
  lemma {:induction false} DigitsOnlyIsFilter(s: string)
    ensures DigitsOnly(s) == Filter(s, IsDigit)
    ensures forall i :: 0 <= i < |s| && IsDigit(s[i]) ==> s[i] in DigitsOnly(s)
  {
    if s != [] {
      DigitsOnlyIsFilter(s[1..]);
      assert DigitsOnly(s) == (if IsDigit(s[0]) then [s[0]] else []) + DigitsOnly(s[1..]);
      assert Filter(s, IsDigit) == (if IsDigit(s[0]) then [s[0]] else []) + Filter(s[1..], IsDigit);
    }
    forall i | 0 <= i < |s| && IsDigit(s[i])
      ensures s[i] in DigitsOnly(s)
    {
      FilterKeepsPassing(s, IsDigit, s[i]);
    }
  }

  /** Removing the non-digits of a concatenation removes them from each part. */
  lemma {:induction false} DigitsOnlyAppend(a: string, b: string)
    ensures DigitsOnly(a + b) == DigitsOnly(a) + DigitsOnly(b)
  {
    if a == [] {
      assert a + b == b;
    } else {
      assert (a + b)[1..] == a[1..] + b;
      DigitsOnlyAppend(a[1..], b);
    }
  }

  /** `s.substring(0, n)`, also `s.slice(0, n)`, for a non-negative `n`. */
  function Prefix(s: string, n: nat): (r: string)
    ensures |r| == if |s| < n then |s| else n
    ensures r <= s
  {
    if |s| < n then s else s[..n]
  }

  /** `s.slice(-n)` for a positive `n`: the last `n` characters, or all of `s` when it is shorter. */
  function LastChars(s: string, n: nat): (r: string)
    ensures |r| == if |s| < n then |s| else n
    ensures exists k :: 0 <= k <= |s| && s[..k] + r == s
  {
    var k := if |s| < n then 0 else |s| - n;
    assert s[..k] + s[k..] == s;
    s[k..]
  }

  predicate IsAsciiLower(c: char) { 'a' <= c <= 'z' }
  predicate IsAsciiUpper(c: char) { 'A' <= c <= 'Z' }

  /** The offset of an ASCII letter in the alphabet, 0 for `a`/`A` up to 25 for `z`/`Z`. */
  function LetterIndex(c: char): int {
    if IsAsciiLower(c) then c as int - 'a' as int else c as int - 'A' as int
  }

  /** One character of `toUpperCase`: a lower-case letter becomes the upper-case letter at the
      same place in the alphabet; every other character is kept. */
  function UpperChar(c: char): (r: char)
    ensures !IsAsciiLower(r)
    ensures IsAsciiLower(c) ==> IsAsciiUpper(r) && LetterIndex(r) == LetterIndex(c)
    ensures !IsAsciiLower(c) ==> r == c
  {
    if IsAsciiLower(c) then (c as int - 32) as char else c
  }

  /** One character of `toLowerCase`: an upper-case letter becomes the lower-case letter at the
      same place in the alphabet; every other character is kept. */
  function LowerChar(c: char): (r: char)
    ensures !IsAsciiUpper(r)
    ensures IsAsciiUpper(c) ==> IsAsciiLower(r) && LetterIndex(r) == LetterIndex(c)
    ensures !IsAsciiUpper(c) ==> r == c
  {
    if IsAsciiUpper(c) then (c as int + 32) as char else c
  }

  /** `s.toUpperCase()` on the ASCII letters. */
  function Upper(s: string): (r: string)
    ensures |r| == |s|
    ensures forall i :: 0 <= i < |r| ==> !IsAsciiLower(r[i])
    ensures forall i :: 0 <= i < |r| ==> r[i] == UpperChar(s[i])
  {
    seq(|s|, i requires 0 <= i < |s| => UpperChar(s[i]))
  }

  /** `s.toLowerCase()` on the ASCII letters. */
  function Lower(s: string): (r: string)
    ensures |r| == |s|
    ensures forall i :: 0 <= i < |r| ==> !IsAsciiUpper(r[i])
    ensures forall i :: 0 <= i < |r| ==> r[i] == LowerChar(s[i])
  {
    seq(|s|, i requires 0 <= i < |s| => LowerChar(s[i]))
  }

  /** Changing the case of a letter and changing it back gives the letter again. */
  lemma CaseRoundTrip(c: char)
    ensures IsAsciiLower(c) ==> LowerChar(UpperChar(c)) == c
    ensures IsAsciiUpper(c) ==> UpperChar(LowerChar(c)) == c
  {
  }

  /** Upper-casing an upper-cased string changes nothing. */
  lemma UpperIdempotent(s: string)
    ensures Upper(Upper(s)) == Upper(s)
  {
  }

  /** `a.toLowerCase() === b.toLowerCase()`. */
  predicate EqualsIgnoreCase(a: string, b: string) {
    Lower(a) == Lower(b)
  }

  /** Ignoring case, a string equals its upper-cased and its lower-cased forms. */
  lemma EqualsIgnoreCaseOfCaseChange(s: string)
    ensures EqualsIgnoreCase(s, Upper(s)) && EqualsIgnoreCase(s, Lower(s))
  {
    assert forall i :: 0 <= i < |s| ==> LowerChar(UpperChar(s[i])) == LowerChar(s[i]);
    assert Lower(Upper(s)) == Lower(s);
    assert forall i :: 0 <= i < |s| ==> LowerChar(LowerChar(s[i])) == LowerChar(s[i]);
    assert Lower(Lower(s)) == Lower(s);
  }

  /** The characters `String.prototype.trim` removes, restricted to ASCII. */
  predicate IsWhitespace(c: char) {
    c == ' ' || c == '\t' || c == '\n' || c == '\r' || c == '\U{0B}' || c == '\U{0C}'
  }

  /** `s.trim() === ''`. */
  predicate IsBlank(s: string) {
    forall i :: 0 <= i < |s| ==> IsWhitespace(s[i])
  }

  /** `sub` occurs in `s` starting at position `k`. */
  predicate OccursAt(s: string, sub: string, k: int) {
    0 <= k <= |s| - |sub| && s[k..k + |sub|] == sub
  }

  /** `s.includes(sub)`. */
  predicate Includes(s: string, sub: string) {
    exists k :: 0 <= k <= |s| && OccursAt(s, sub, k)
  }

  /** `a || b` on strings: the empty string is falsy. */
  function OrElse(a: string, b: string): (r: string)
    ensures r == a || r == b
    ensures r == "" ==> a == "" && b == ""
    ensures a != "" ==> r == a
  {
    if a != "" then a else b
  }

  /** The value of a decimal digit character: its distance from `'0'`. */
  function DigitValue(c: char): (d: nat)
    requires IsDigit(c)
    ensures d < 10
    ensures c as int == '0' as int + d
  {
    c as int - '0' as int
  }

  /** The character of a decimal digit, the one whose value is `d`. */
  function DigitChar(d: nat): (c: char)
    requires d < 10
    ensures IsDigit(c) && DigitValue(c) == d
  {
    ('0' as int + d) as char
  }

  /** Every digit character is the character of its own value. */
  lemma DigitCharOfValue(c: char)
    requires IsDigit(c)
    ensures DigitChar(DigitValue(c)) == c
  {
  }

  /** The decimal text of a non-negative integer, as `${n}` prints it. */
  function Decimal(n: nat): (r: string)
    ensures |r| >= 1 && AllDigits(r)
  {
    if n < 10 then [DigitChar(n)] else Decimal(n / 10) + [DigitChar(n % 10)]
  }

  /** The value of a string of decimal digits. */
  function ParseDecimal(s: string): nat
    requires AllDigits(s)
  {
    if s == [] then 0 else ParseDecimal(s[..|s| - 1]) * 10 + DigitValue(s[|s| - 1])
  }

  /** Printing then parsing a number gives the number back. */
  lemma {:induction false} ParseDecimalOfDecimal(n: nat)
    ensures ParseDecimal(Decimal(n)) == n
  {
    var r := Decimal(n);
    if n >= 10 {
      ParseDecimalOfDecimal(n / 10);
      assert r[..|r| - 1] == Decimal(n / 10);
    }
  }

  /** Every number from 1000 to 9999 prints as exactly four digits. */
  lemma DecimalOfFourDigits(n: nat)
    requires 1000 <= n <= 9999
    ensures |Decimal(n)| == 4
  {
    assert n / 10 / 10 == n / 100;
    assert n / 100 / 10 == n / 1000;
    assert |Decimal(n / 1000)| == 1;
    assert |Decimal(n / 100)| == 2;
    assert |Decimal(n / 10)| == 3;
  }
}
