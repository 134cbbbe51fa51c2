/** Decimal numerals, as std::to_string writes them and std::stoi reads them. */
module Decimals {
  predicate IsDigit(c: char) {
    '0' <= c <= '9'
  }

  predicate AllDigits(s: string) {
    forall i :: 0 <= i < |s| ==> IsDigit(s[i])
  }

  function DigitValue(c: char): nat
    requires IsDigit(c)
  {
    c as int - '0' as int
  }

  function Digit(d: nat): (c: char)
    requires d < 10
    ensures IsDigit(c) && DigitValue(c) == d
  {
    (d + '0' as int) as char
  }

  function Decimal(n: nat): (s: string)
    ensures s != "" && AllDigits(s)
  {
    if n < 10 then [Digit(n)] else Decimal(n / 10) + [Digit(n % 10)]
  }

  function Value(s: string): nat
    requires AllDigits(s)
  {
    if s == "" then 0 else Value(s[..|s| - 1]) * 10 + DigitValue(s[|s| - 1])
  }

  lemma {:induction false} ValueOfDecimal(n: nat)
    ensures Value(Decimal(n)) == n
  {
    if n < 10 {
      assert [Digit(n)][..0] == "";
    } else {
      ValueOfDecimal(n / 10);
      assert Decimal(n)[..|Decimal(n)| - 1] == Decimal(n / 10);
    }
  }

  // ----- std::stoi -----

  datatype Number = Number(value: int) | NoNumber

  const INT_MAX := 0x7FFF_FFFF
  const INT_MIN := -0x8000_0000

  predicate IsSpace(c: char) {
    c == ' ' || '\t' <= c <= '\r'
  }

  function SkipSpaces(s: string): string {
    if s != "" && IsSpace(s[0]) then SkipSpaces(s[1..]) else s
  }

  // The digits a text begins with.
  function LeadingDigits(s: string): (d: string)
    ensures AllDigits(d) && d <= s
  {
    if s != "" && IsDigit(s[0]) then [s[0]] + LeadingDigits(s[1..]) else ""
  }

  // Spaces, a sign and digits, up to whatever follows; nothing without a digit, and nothing beyond an int.
  function Stoi(s: string): Number {
    var t := SkipSpaces(s);
    var negative := t != "" && t[0] == '-';
    var digits := LeadingDigits(if t != "" && (t[0] == '-' || t[0] == '+') then t[1..] else t);
    var n: int := if negative then 0 - Value(digits) else Value(digits);
    if digits != "" && INT_MIN <= n <= INT_MAX then Number(n) else NoNumber
  }

  lemma {:induction false} LeadingAll(s: string)
    requires AllDigits(s)
    ensures LeadingDigits(s) == s
  {
    if s != "" {
      LeadingAll(s[1..]);
      assert s == [s[0]] + s[1..];
    }
  }

  // A numeral is read as its value if that fits an int, and refused otherwise.
  lemma StoiOfDigits(s: string)
    requires s != "" && AllDigits(s)
    ensures Stoi(s) == if Value(s) <= INT_MAX then Number(Value(s)) else NoNumber
  {
    assert IsDigit(s[0]) && SkipSpaces(s) == s;
    LeadingAll(s);
  }

  lemma StoiOfDecimal(n: nat)
    requires n <= INT_MAX
    ensures Stoi(Decimal(n)) == Number(n)
  {
    ValueOfDecimal(n);
    StoiOfDigits(Decimal(n));
  }

  // ----- pieces between delimiters -----

  // Where the delimiter first occurs, or the length.
  function FirstOf(s: string, c: char): (i: nat)
    ensures i <= |s| && (i < |s| ==> s[i] == c) && forall j :: 0 <= j < i ==> s[j] != c
  {
    if s == "" || s[0] == c then 0 else 1 + FirstOf(s[1..], c)
  }

  // std::getline in a loop: a final empty piece is not delivered.
  function Split(s: string, c: char): seq<string> {
    if s == "" then []
    else
      var i := FirstOf(s, c);
      if i == |s| then [s] else [s[..i]] + Split(s[i + 1..], c)
  }

  function Join(parts: seq<string>, c: char): string {
    if parts == [] then ""
    else if |parts| == 1 then parts[0]
    else parts[0] + [c] + Join(parts[1..], c)
  }

  lemma FirstAfter(part: string, c: char, rest: string)
    requires c !in part
    ensures FirstOf(part + [c] + rest, c) == |part|
  {
    var s := part + [c] + rest;
    var i := FirstOf(s, c);
    assert s[|part|] == c;
    assert forall j :: 0 <= j < |part| ==> s[j] == part[j];
  }

  // Pieces without the delimiter are found again, if the last one is not empty.
  lemma {:induction false} SplitJoin(parts: seq<string>, c: char)
    requires forall i :: 0 <= i < |parts| ==> c !in parts[i]
    requires parts != [] ==> parts[|parts| - 1] != ""
    ensures Split(Join(parts, c), c) == parts
  {
    if |parts| == 1 {
      assert FirstOf(parts[0], c) == |parts[0]|;
    } else if |parts| > 1 {
      var s := Join(parts, c);
      SplitJoin(parts[1..], c);
      FirstAfter(parts[0], c, Join(parts[1..], c));
      assert s[..|parts[0]|] == parts[0] && s[|parts[0]| + 1..] == Join(parts[1..], c);
      assert parts == [parts[0]] + parts[1..];
    }
  }
}
