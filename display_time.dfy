/**
 * The countdown formatter of the web client: whole seconds rendered as
 * `MM:SS`, where each field is the decimal text of the number left-padded
 * with '0' to width 2 (padding never truncates a longer field).
 *
 * A parser for the same format is defined beside it, so that the formatter
 * can be shown to lose no information.
 */
module DisplayTime {
  import opened Wrappers

  predicate IsDigit(c: char) {
    '0' <= c <= '9'
  }

  predicate AllDigits(s: string) {
    forall i :: 0 <= i < |s| ==> IsDigit(s[i])
  }

  function DigitChar(d: nat): (c: char)
    requires d < 10
    ensures IsDigit(c)
    ensures c as int - '0' as int == d
  {
    ('0' as int + d) as char
  }

  /** Decimal text of a non-negative integer, as a template literal `${n}` gives it. */
  function Digits(n: nat): (text: string)
    decreases n
  {
    if n < 10 then [DigitChar(n)] else Digits(n / 10) + [DigitChar(n % 10)]
  }

  /** The number a string of decimal digits denotes (leading zeros allowed). */
  function Value(s: string): (n: nat)
    requires AllDigits(s)
  {
    if s == [] then 0 else Value(s[..|s| - 1]) * 10 + (s[|s| - 1] as int - '0' as int)
  }

  /** `s.padStart(2, '0')`: strings of length two or more are left as they are. */
  function PadStart2(s: string): (padded: string) {
    if |s| >= 2 then s else seq(2 - |s|, _ => '0') + s
  }

  /** `secondToDisplayTime`: minutes, a colon, and the seconds within the minute. */
  function SecondToDisplayTime(sec: nat): (text: string) {
    PadStart2(Digits(sec / 60)) + ":" + PadStart2(Digits(sec % 60))
  }

  /**
   * Reads a display time back: the last two characters are the seconds field
   * (a value below 60), the character before them is the colon, and everything
   * before that is the minutes field (one digit or more).
   */
  function ParseDisplayTime(s: string): (sec: Option<nat>) {
    if |s| < 4 then None
    else
      var minutes, seconds := s[..|s| - 3], s[|s| - 2..];
      if s[|s| - 3] == ':' && AllDigits(minutes) && AllDigits(seconds) && Value(seconds) < 60
      then Some(Value(minutes) * 60 + Value(seconds))
      else None
  }

  // ---------------------------------------------------------------------
  // Decimal digits

  lemma {:induction false} DigitsCorrect(n: nat)
    ensures |Digits(n)| >= 1 && AllDigits(Digits(n))
    ensures Value(Digits(n)) == n
    ensures |Digits(n)| == 1 <==> n < 10
    ensures n >= 10 ==> Digits(n)[0] != '0'
    decreases n
  {
    if n >= 10 {
      DigitsCorrect(n / 10);
      var s := Digits(n);
      assert s[..|s| - 1] == Digits(n / 10);
    }
  }

  lemma {:induction false} DigitsLength(n: nat)
    ensures n < 100 ==> |Digits(n)| <= 2
    ensures n >= 100 ==> |Digits(n)| >= 3
    decreases n
  {
    DigitsCorrect(n);
    if n >= 10 {
      DigitsLength(n / 10);
      DigitsCorrect(n / 10);
    }
  }

  lemma {:induction false} ValueLeadingZero(s: string)
    requires AllDigits(s)
    ensures AllDigits(['0'] + s) && Value(['0'] + s) == Value(s)
    decreases |s|
  {
    var t := ['0'] + s;
    if s != [] {
      assert t[..|t| - 1] == ['0'] + s[..|s| - 1];
      ValueLeadingZero(s[..|s| - 1]);
    }
  }

  lemma PadStart2Correct(s: string)
    requires |s| >= 1 && AllDigits(s)
    ensures AllDigits(PadStart2(s)) && Value(PadStart2(s)) == Value(s)
    ensures |PadStart2(s)| == if |s| < 2 then 2 else |s|
    ensures |s| >= 2 ==> PadStart2(s) == s
  {
    if |s| < 2 {
      assert PadStart2(s) == ['0'] + s;
      ValueLeadingZero(s);
    }
  }

  /** The padded decimal text of `n`: digits only, width at least two, value `n`. */
  lemma PaddedField(n: nat)
    ensures AllDigits(PadStart2(Digits(n))) && Value(PadStart2(Digits(n))) == n
    ensures |PadStart2(Digits(n))| == if n < 100 then 2 else |Digits(n)|
  {
    DigitsCorrect(n);
    DigitsLength(n);
    PadStart2Correct(Digits(n));
  }

  // ---------------------------------------------------------------------
  // Shape and round trip of the display time

  /**
   * For every input, the text ends in a colon and a two-digit seconds field
   * holding `sec % 60`; the part before the colon is the padded minutes.
   */
  lemma DisplayTimeShape(sec: nat)
    ensures var r := SecondToDisplayTime(sec);
      && |r| >= 5
      && r[|r| - 3] == ':'
      && r[..|r| - 3] == PadStart2(Digits(sec / 60))
      && AllDigits(r[..|r| - 3]) && Value(r[..|r| - 3]) == sec / 60
      && AllDigits(r[|r| - 2..]) && Value(r[|r| - 2..]) == sec % 60 < 60
  {
    var mm, ss := PadStart2(Digits(sec / 60)), PadStart2(Digits(sec % 60));
    PaddedField(sec / 60);
    PaddedField(sec % 60);
    var r := SecondToDisplayTime(sec);
    assert r == mm + ":" + ss;
    assert r[..|r| - 3] == mm;
    assert r[|r| - 2..] == ss;
  }

  /** Below 100 minutes the text is exactly `MM:SS`, five characters. */
  lemma DisplayTimeBelow6000(sec: nat)
    requires sec < 6000
    ensures var r := SecondToDisplayTime(sec);
      && |r| == 5 && r[2] == ':'
      && AllDigits(r[..2]) && Value(r[..2]) == sec / 60
      && AllDigits(r[3..]) && Value(r[3..]) == sec % 60
  {
    DisplayTimeShape(sec);
    PaddedField(sec / 60);
  }

  /** From 100 minutes on the minutes field is the unpadded, untruncated decimal text. */
  lemma DisplayTimeFrom6000(sec: nat)
    requires sec >= 6000
    ensures var r := SecondToDisplayTime(sec);
      && r[..|r| - 3] == Digits(sec / 60)
      && |r| >= 6
  {
    DisplayTimeShape(sec);
    DigitsLength(sec / 60);
    PadStart2Correct(Digits(sec / 60));
    DigitsCorrect(sec / 60);
  }

  lemma {:induction false} DisplayTimeRoundTrip(sec: nat)
    ensures ParseDisplayTime(SecondToDisplayTime(sec)) == Some(sec)
  {
    DisplayTimeShape(sec);
  }

  lemma DisplayTimeInjective(a: nat, b: nat)
    requires SecondToDisplayTime(a) == SecondToDisplayTime(b)
    ensures a == b
  {
    DisplayTimeRoundTrip(a);
    DisplayTimeRoundTrip(b);
  }

  lemma DisplayTimeExamples()
    ensures SecondToDisplayTime(5) == "00:05"
    ensures SecondToDisplayTime(65) == "01:05"
    ensures SecondToDisplayTime(600) == "10:00"
    ensures SecondToDisplayTime(1500) == "25:00"
    ensures SecondToDisplayTime(6000) == "100:00"
  {
  }
}
