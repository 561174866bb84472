/** Decimal digits and blanks. */
module Text {

  predicate IsDigit(c: char) {
    '0' <= c <= '9'
  }

  ghost predicate AllDigits(s: string) {
    forall i | 0 <= i < |s| :: IsDigit(s[i])
  }

  predicate AreDigits(s: string)
    ensures AreDigits(s) <==> AllDigits(s)
  {
    s == "" || (IsDigit(s[0]) && AreDigits(s[1..]))
  }

  function DigitChar(d: nat): (c: char)
    requires d < 10
    ensures IsDigit(c) && DigitOf(c) == d
  {
    (('0' as int) + d) as char
  }

  function DigitOf(c: char): nat
    requires IsDigit(c)
  {
    c as int - '0' as int
  }

  /** `String(n)`. */
  function Digits(n: nat): (s: string)
    ensures AllDigits(s) && s != ""
  {
    if n < 10 then [DigitChar(n)] else Digits(n / 10) + [DigitChar(n % 10)]
  }

  function Value(s: string): nat
    requires AllDigits(s)
  {
    if s == "" then 0 else 10 * Value(s[..|s| - 1]) + DigitOf(s[|s| - 1])
  }

  lemma {:induction false} ValueOfDigits(n: nat)
    ensures Value(Digits(n)) == n
  {
    if n >= 10 {
      ValueOfDigits(n / 10);
      assert Digits(n)[..|Digits(n)| - 1] == Digits(n / 10);
    } else {
      assert Digits(n)[..0] == "";
    }
  }

  /** What `trim` and `\s` take for white space. */
  predicate IsBlank(c: char) {
    || c in {' ', '\t', '\n', '\r', '\U{000B}', '\U{000C}', '\U{00A0}', '\U{FEFF}', '\U{1680}'}
    || '\U{2000}' <= c <= '\U{200A}'
    || c in {'\U{2028}', '\U{2029}', '\U{202F}', '\U{205F}', '\U{3000}'}
  }

  function TrimStart(s: string): string {
    if s != "" && IsBlank(s[0]) then TrimStart(s[1..]) else s
  }

  function TrimEnd(s: string): string {
    if s != "" && IsBlank(s[|s| - 1]) then TrimEnd(s[..|s| - 1]) else s
  }

  function Trim(s: string): string {
    TrimEnd(TrimStart(s))
  }

  function OnlyDigits(s: string): (digits: string)
    ensures AllDigits(digits)
  {
    if s == "" then "" else (if IsDigit(s[0]) then [s[0]] else "") + OnlyDigits(s[1..])
  }

  function Without(s: string, c: char): string {
    if s == "" then "" else (if s[0] == c then "" else [s[0]]) + Without(s[1..], c)
  }

  function WithoutBlanks(s: string): string {
    if s == "" then "" else (if IsBlank(s[0]) then "" else [s[0]]) + WithoutBlanks(s[1..])
  }

  function ReplaceFirst(s: string, c: char, with: char): string {
    if s == "" then "" else if s[0] == c then [with] + s[1..] else [s[0]] + ReplaceFirst(s[1..], c, with)
  }

  lemma {:induction false} NothingToRemove(s: string, c: char)
    requires forall i | 0 <= i < |s| :: s[i] != c
    ensures Without(s, c) == s
  {
    if s != "" { NothingToRemove(s[1..], c); }
  }

  lemma {:induction false} NoBlanks(s: string)
    requires forall i | 0 <= i < |s| :: !IsBlank(s[i])
    ensures WithoutBlanks(s) == s
  {
    if s != "" { NoBlanks(s[1..]); }
  }

  lemma {:induction false} ReplaceAt(s: string, c: char, with: char, k: nat)
    requires k < |s| && s[k] == c && forall i | 0 <= i < k :: s[i] != c
    ensures ReplaceFirst(s, c, with) == s[..k] + [with] + s[k + 1..]
  {
    if k == 0 {
      assert s[..0] + [with] + s[1..] == [with] + s[1..];
    } else {
      ReplaceAt(s[1..], c, with, k - 1);
      assert [s[0]] + (s[1..][..k - 1] + [with] + s[1..][k..]) == s[..k] + [with] + s[k + 1..];
    }
  }
}
