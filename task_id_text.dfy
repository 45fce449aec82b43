/** A task id on the queue is its decimal text: the publisher sends `str(task.id)` and the
    consumer reads it back with Python's `int(...)` (app/services/task_processor.py,
    app/worker.py). This module models both conversions on ASCII text. */
module TaskIdText {
  import opened Wrappers

  predicate IsDigit(c: char)
  {
    '0' <= c <= '9'
  }

  function DigitValue(c: char): nat
    requires IsDigit(c)
  {
    (c as int) - ('0' as int)
  }

  function DigitChar(d: nat): (c: char)
    requires d < 10
    ensures IsDigit(c) && DigitValue(c) == d
  {
    ('0' as int + d) as char
  }

  /** ASCII whitespace: space, tab, line feed, vertical tab, form feed, carriage return. */
  predicate IsSpace(c: char)
  {
    c == ' ' || 9 <= c as int <= 13
  }

  /** The decimal digits of `n`, most significant first, without leading zeros. */
  function Digits(n: nat): (s: string)
    ensures s != [] && IsDigit(s[0])
    ensures n > 0 ==> s[0] != '0'
    decreases n
  {
    if n < 10 then [DigitChar(n)] else Digits(n / 10) + [DigitChar(n % 10)]
  }

  /** `str(n)`: a minus sign for negative numbers, then the digits. */
  function DecimalString(n: int): (s: string)
    ensures s != []
    ensures s[0] == '-' <==> n < 0
    ensures s == "0" <==> n == 0
  {
    if n < 0 then "-" + Digits(-n) else Digits(n)
  }

  function StripLeft(s: string): (r: string)
    ensures |r| <= |s|
    ensures r == [] || !IsSpace(r[0])
  {
    if s != [] && IsSpace(s[0]) then StripLeft(s[1..]) else s
  }

  function StripRight(s: string): (r: string)
    ensures |r| <= |s|
    ensures r == [] || !IsSpace(r[|r| - 1])
  {
    if s != [] && IsSpace(s[|s| - 1]) then StripRight(s[..|s| - 1]) else s
  }

  /** Digits with single underscores between them, read as a natural number
      (leading zeros allowed; no leading, trailing or doubled underscore). */
  function ParseNat(s: string): (r: Option<nat>)
    ensures r.Some? ==> s != [] && IsDigit(s[0]) && IsDigit(s[|s| - 1])
    decreases |s|
  {
    if s == [] || !IsDigit(s[|s| - 1]) then None
    else
      var d := DigitValue(s[|s| - 1]);
      var init := s[..|s| - 1];
      if init == [] then Some(d)
      else
        var more := if init[|init| - 1] == '_' then init[..|init| - 1] else init;
        match ParseNat(more)
        case Some(v) => Some(v * 10 + d)
        case None => None
  }

  /** `int(s)` for base ten: surrounding whitespace is ignored, then an optional sign and digits.
      None is the ValueError case. */
  function ParseInt(s: string): (r: Option<int>)
    ensures StripRight(StripLeft(s)) == [] ==> r.None?
    ensures r.Some? && r.value < 0 ==> StripRight(StripLeft(s))[0] == '-'
  {
    var t := StripRight(StripLeft(s));
    if t != [] && (t[0] == '-' || t[0] == '+') then
      match ParseNat(t[1..])
      case Some(v) =>
        var signed: int := if t[0] == '-' then -(v as int) else v;
        Some(signed)
      case None => None
    else
      match ParseNat(t)
      case Some(v) => Some(v)
      case None => None
  }

  /** Stripping on the left keeps a suffix, on the right a prefix. */
  lemma {:induction false} StripKeepsInfix(s: string)
    ensures |StripLeft(s)| <= |s| && StripLeft(s) == s[|s| - |StripLeft(s)|..]
    ensures |StripRight(s)| <= |s| && StripRight(s) == s[..|StripRight(s)|]
    decreases |s|
  {
    if s != [] && IsSpace(s[0]) {
      StripKeepsInfix(s[1..]);
    }
    if s != [] && IsSpace(s[|s| - 1]) {
      StripKeepsInfix(s[..|s| - 1]);
    }
  }

  /** Text without a single digit is rejected. */
  lemma ParseIntNeedsDigit(s: string)
    requires forall i :: 0 <= i < |s| ==> !IsDigit(s[i])
    ensures ParseInt(s) == None
  {
    var l := StripLeft(s);
    var t := StripRight(l);
    StripKeepsInfix(s);
    StripKeepsInfix(l);
    if t != [] {
      var k := |s| - |l| + |t| - 1;
      assert t[|t| - 1] == l[|t| - 1] == s[k];
      assert !IsDigit(t[|t| - 1]);
      if |t| > 1 {
        assert t[1..][|t| - 2] == t[|t| - 1];
      }
    }
  }

  lemma {:induction false} DigitsAreDigits(n: nat)
    ensures Digits(n) != []
    ensures forall i :: 0 <= i < |Digits(n)| ==> IsDigit(Digits(n)[i])
    decreases n
  {
    if n >= 10 {
      DigitsAreDigits(n / 10);
    }
  }

  lemma {:induction false} ParseDigits(n: nat)
    ensures ParseNat(Digits(n)) == Some(n)
    decreases n
  {
    var s := Digits(n);
    if n >= 10 {
      var init := Digits(n / 10);
      assert s[..|s| - 1] == init;
      DigitsAreDigits(n / 10);
      assert init[|init| - 1] != '_';
      ParseDigits(n / 10);
    }
  }

  /** Text without surrounding whitespace is left alone by stripping. */
  lemma StripUnchanged(s: string)
    requires s != [] && !IsSpace(s[0]) && !IsSpace(s[|s| - 1])
    ensures StripRight(StripLeft(s)) == s
  {
  }

  /** Every integer's decimal text is read back as that integer. */
  lemma DecimalRoundTrip(n: int)
    ensures ParseInt(DecimalString(n)) == Some(n)
  {
    var m: nat := if n < 0 then -n else n;
    DigitsAreDigits(m);
    ParseDigits(m);
    var s := DecimalString(n);
    var d := Digits(m);
    assert IsDigit(d[|d| - 1]);
    if n < 0 {
      assert s[|s| - 1] == d[|d| - 1];
      StripUnchanged(s);
      assert s[1..] == d;
    } else {
      assert IsDigit(d[0]);
      StripUnchanged(s);
    }
  }

  /** Digit strings with and without underscores, read as natural numbers. */
  lemma ParseNatExamples()
    ensures ParseNat("42") == Some(42) && ParseNat("7") == Some(7)
    ensures ParseNat("1_000") == Some(1000)
    ensures ParseNat("1__0") == None
  {
    assert "42"[..1] == "4";
    assert ParseNat("4") == Some(4);
    assert "1_000"[..4] == "1_00";
    assert "1_00"[..3] == "1_0";
    assert "1_0"[..2] == "1_";
    assert "1_"[..1] == "1";
    assert ParseNat("1") == Some(1);
    assert ParseNat("1_0") == Some(10);
    assert ParseNat("1_00") == Some(100);
    assert "1__0"[..3] == "1__";
    assert "1__"[..2] == "1_";
    assert ParseNat("1_") == None;
  }

  /** Surrounding whitespace is ignored, and a leading minus negates. */
  lemma ParseIntStripsSpace()
    ensures ParseInt(" 42\n") == Some(42)
    ensures ParseInt("-7") == Some(-7)
  {
    ParseNatExamples();
    assert StripLeft(" 42\n") == "42\n";
    assert StripRight("42\n") == "42";
    StripUnchanged("-7");
    assert "-7"[1..] == "7";
  }

  /** Single underscores between digits are accepted, a doubled one is not; text with no digit
      at all, the empty string among it, is the ValueError case. */
  lemma ParseIntUnderscores()
    ensures ParseInt("1_000") == Some(1000)
    ensures ParseInt("1__0") == None
    ensures ParseInt("abc") == None && ParseInt("") == None
  {
    ParseNatExamples();
    StripUnchanged("1_000");
    StripUnchanged("1__0");
    assert forall i :: 0 <= i < |"abc"| ==> !IsDigit("abc"[i]);
    ParseIntNeedsDigit("abc");
  }
}
