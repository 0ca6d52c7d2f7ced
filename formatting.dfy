// Decimal rendering of integers as .NET does it: the default `int`
// formatting used by string interpolation, and the custom numeric format
// "00" used by the countdown display. A parser for the rendered text is
// the inverse that the round-trip lemmas read the rendered text back with.
module Formatting {

  datatype Option<T> = None | Some(value: T)

  predicate IsDigit(c: char) {
    '0' <= c <= '9'
  }

  predicate AllDigits(s: string) {
    forall i :: 0 <= i < |s| ==> IsDigit(s[i])
  }

  function DigitValue(c: char): int
    requires IsDigit(c)
  {
    c as int - '0' as int
  }

  function DigitChar(d: int): (c: char)
    requires 0 <= d < 10
    ensures IsDigit(c) && DigitValue(c) == d
  {
    ('0' as int + d) as char
  }

  /** The decimal digits of n, most significant first, with no leading zero. */
  function Digits(n: nat): (s: string)
    ensures |s| >= 1 && AllDigits(s)
    ensures s[0] == '0' ==> n == 0
    ensures n < 10 <==> |s| == 1
    decreases n
  {
    if n < 10 then [DigitChar(n)] else Digits(n / 10) + [DigitChar(n % 10)]
  }

  /** The number a string of decimal digits denotes (the empty string denotes 0). */
  function Value(s: string): nat
    requires AllDigits(s)
  {
    if s == [] then 0 else Value(s[..|s| - 1]) * 10 + DigitValue(s[|s| - 1])
  }

  lemma {:induction false} ValueOfDigits(n: nat)
    ensures Value(Digits(n)) == n
    decreases n
  {
    if n >= 10 {
      var s := Digits(n);
      assert s[..|s| - 1] == Digits(n / 10);
      ValueOfDigits(n / 10);
    }
  }

  /** A leading zero does not change the value of a digit string. */
  lemma {:induction false} LeadingZero(s: string)
    requires AllDigits(s)
    ensures AllDigits(['0'] + s) && Value(['0'] + s) == Value(s)
    decreases |s|
  {
    if s != [] {
      var t := ['0'] + s;
      assert t[..|t| - 1] == ['0'] + s[..|s| - 1];
      LeadingZero(s[..|s| - 1]);
    }
  }

  /** Default rendering of an `int`: a minus sign for negatives, then the digits. */
  function IntToString(n: int): (s: string)
    ensures n >= 0 ==> |s| >= 1 && AllDigits(s) && Value(s) == n && (s[0] == '0' ==> s == "0")
    ensures n < 0 ==> |s| >= 2 && s[0] == '-' && AllDigits(s[1..]) && Value(s[1..]) == -n && s[1] != '0'
  {
    ValueOfDigits(if n < 0 then -n else n);
    if n < 0 then "-" + Digits(-n) else Digits(n)
  }

  /** The digits of n padded with zeros to at least two characters. */
  function Pad2(n: nat): (s: string)
    ensures AllDigits(s) && Value(s) == n
    ensures |s| == if n < 10 then 2 else |Digits(n)|
    ensures |s| == 2 || s[0] != '0'
  {
    ValueOfDigits(n);
    if n < 10 then
      LeadingZero(Digits(n));
      "0" + Digits(n)
    else
      Digits(n)
  }

  /** The .NET custom numeric format "00": at least two digits, sign in front. */
  function Format00(n: int): (s: string)
    ensures n >= 0 ==> |s| >= 2 && AllDigits(s) && Value(s) == n && (|s| == 2 || s[0] != '0')
    ensures n < 0 ==>
      |s| >= 3 && s[0] == '-' && AllDigits(s[1..]) && Value(s[1..]) == -n && (|s| == 3 || s[1] != '0')
  {
    if n < 0 then "-" + Pad2(-n) else Pad2(n)
  }

  /** Index of the first occurrence of c in s, or |s| when there is none. */
  function Find(s: string, c: char): (i: nat)
    ensures i <= |s|
    ensures i < |s| ==> s[i] == c
    ensures forall j :: 0 <= j < i ==> s[j] != c
  {
    if s == [] then 0 else if s[0] == c then 0 else 1 + Find(s[1..], c)
  }

  /** Reads back text of the shape "<digits>:<digits>" as a (minutes, seconds) pair. */
  function ParseClock(s: string): Option<(int, int)> {
    var i := Find(s, ':');
    if 0 < i < |s| - 1 && AllDigits(s[..i]) && AllDigits(s[i + 1..]) then
      Some((Value(s[..i]), Value(s[i + 1..])))
    else
      None
  }

  lemma ParseClockOfFields(m: nat, sec: nat)
    ensures ParseClock(Format00(m) + ":" + Format00(sec)) == Some((m, sec))
  {
    var a, b := Format00(m), Format00(sec);
    var s := a + ":" + b;
    var i := Find(s, ':');
    assert s[|a|] == ':';
    assert i == |a|;
    assert s[..i] == a;
    assert s[i + 1..] == b;
  }
}
