/** `formatRecordingTime`, the recorder's `m:ss` display of a duration in seconds. */
module AudioRecorder {
  import opened Strings

  /** `${Math.floor(s / 60)}:${(s % 60).toString().padStart(2, '0')}`; Dafny's `/` with a
      positive divisor rounds down as `Math.floor` does. */
  function FormatRecordingTime(seconds: int): string {
    IntToString(seconds / 60) + ":" + PadStart(IntToString(JsRem(seconds, 60)), 2, '0')
  }

  /** For a non-negative duration both fields are plain numerals. */
  lemma NonNegativeFields(seconds: int)
    requires seconds >= 0
    ensures FormatRecordingTime(seconds) ==
      NatToString(seconds / 60) + ":" + PadStart(NatToString(seconds % 60), 2, '0')
  {
  }

  /** For a non-negative duration the output is the minutes unpadded, a colon and two
      digits for the seconds in 00..59; reading both fields back gives the duration. */
  lemma FormatRecordingTimeReadsBack(seconds: int)
    requires seconds >= 0
    ensures var out := FormatRecordingTime(seconds);
      |out| >= 4 && out[|out| - 3] == ':' &&
      out[..|out| - 3] == NatToString(seconds / 60) &&
      AllDigits(out[|out| - 2..], 10) && Value(out[|out| - 2..], 10) < 60 &&
      Value(out[..|out| - 3], 10) * 60 + Value(out[|out| - 2..], 10) == seconds
  {
    var q := seconds / 60;
    var r := seconds % 60;
    assert seconds == q * 60 + r;
    var m := NatToString(q);
    var d := PadStart(NatToString(r), 2, '0');
    TwoDigits(r);
    Fields(m, d);
    NonNegativeFields(seconds);
  }

  /** The quotient and remainder of `a == 10 * q + r` by ten, for a digit `r`. */
  lemma DivModTen(a: int, q: int, r: int)
    requires 0 <= r < 10 && a == 10 * q + r
    ensures a / 10 == q && a % 10 == r
  {
  }

  /** The quotient and remainder of `a == 60 * q + r` by sixty, for `r` below sixty. */
  lemma DivModSixty(a: int, q: int, r: int)
    requires 0 <= r < 60 && a == 60 * q + r
    ensures a / 60 == q && a % 60 == r
  {
  }

  /** A one-digit number is written as its digit. */
  lemma OneDigit(n: nat)
    requires n < 10
    ensures NatToString(n) == [DigitChar(n)]
  {
  }

  /** Below ten seconds the field is a '0' and the digit. */
  lemma SecondsFieldPadded(u: nat)
    requires u < 10
    ensures PadStart(NatToString(u), 2, '0') == [DigitChar(0), DigitChar(u)]
  {
    OneDigit(u);
    PadOne(DigitChar(u));
  }

  /** A number `r` from 10 to 59 is its two digits `t` and `u`. */
  lemma TwoDigitNumeral(r: nat, t: nat, u: nat)
    requires 0 < t < 6 && u < 10 && r == 10 * t + u
    ensures NatToString(r) == [DigitChar(t), DigitChar(u)]
  {
    DivModTen(r, t, u);
    NatToStringLastDigit(r);
    OneDigit(t);
  }

  /** From ten seconds on the field is the two digits of the number. */
  lemma SecondsFieldUnpadded(r: nat, t: nat, u: nat)
    requires 0 < t < 6 && u < 10 && r == 10 * t + u
    ensures PadStart(NatToString(r), 2, '0') == [DigitChar(t), DigitChar(u)]
  {
    TwoDigitNumeral(r, t, u);
    PadStartWideEnough(NatToString(r), 2, '0');
  }

  /** The seconds field of `r == 10 * t + u` seconds is the digit `t` and the digit `u`. */
  lemma SecondsField(r: nat, t: nat, u: nat)
    requires t < 6 && u < 10 && r == 10 * t + u
    ensures PadStart(NatToString(r), 2, '0') == [DigitChar(t), DigitChar(u)]
  {
    if t == 0 {
      SecondsFieldPadded(u);
    } else {
      SecondsFieldUnpadded(r, t, u);
    }
  }

  /** Under ten minutes the display is one digit of minutes, a colon and two digits of
      seconds: `q` minutes and `10 * t + u` seconds read `q:tu`. */
  lemma UnderTenMinutes(seconds: int, q: nat, t: nat, u: nat)
    requires q < 10 && t < 6 && u < 10
    requires seconds == 60 * q + 10 * t + u
    ensures FormatRecordingTime(seconds) == [DigitChar(q), ':', DigitChar(t), DigitChar(u)]
  {
    var r := 10 * t + u;
    DivModSixty(seconds, q, r);
    NonNegativeFields(seconds);
    OneDigit(q);
    SecondsField(r, t, u);
    Joined(NatToString(q), PadStart(NatToString(r), 2, '0'));
  }

  /** A one-character minutes field and a two-character seconds field around the colon. */
  lemma Joined(m: string, d: string)
    requires |m| == 1 && |d| == 2
    ensures m + ":" + d == [m[0], ':', d[0], d[1]]
  {
  }

  /** A two-character minutes field and a two-character seconds field around the colon. */
  lemma JoinedTwo(m: string, d: string)
    requires |m| == 2 && |d| == 2
    ensures m + ":" + d == [m[0], m[1], ':', d[0], d[1]]
  {
  }

  // The examples are stated for a parameter equal to the literal: with a literal argument
  // the solver would evaluate the whole formatting chain eagerly.

  lemma FiveSeconds(s: int)
    requires s == 5
    ensures FormatRecordingTime(s) == "0:05"
  {
    UnderTenMinutes(s, 0, 0, 5);
  }

  lemma SixtyFiveSeconds(s: int)
    requires s == 65
    ensures FormatRecordingTime(s) == "1:05"
  {
    UnderTenMinutes(s, 1, 0, 5);
  }

  lemma TenMinutes(s: int)
    requires s == 600
    ensures FormatRecordingTime(s) == "10:00"
  {
    var m := s / 60;
    DivModSixty(s, 10, 0);
    NonNegativeFields(s);
    TwoDigitNumeral(m, 1, 0);
    SecondsField(0, 0, 0);
    JoinedTwo(NatToString(m), PadStart(NatToString(0), 2, '0'));
  }

  lemma MinusFiveSeconds(s: int)
    requires s == -5
    ensures FormatRecordingTime(s) == "-1:-5"
  {
    assert s / 60 == -1;
    assert JsRem(s, 60) == -5;
    assert NatToString(1) == "1" && NatToString(5) == "5";
    PadStartWideEnough("-5", 2, '0');
  }

  /** Minutes are not padded; the seconds always are. A negative input keeps the signs of
      `Math.floor` and of `%`. */
  lemma FormatRecordingTimeExamples()
    ensures FormatRecordingTime(5) == "0:05"
    ensures FormatRecordingTime(65) == "1:05"
    ensures FormatRecordingTime(600) == "10:00"
    ensures FormatRecordingTime(-5) == "-1:-5"
  {
    FiveSeconds(5);
    SixtyFiveSeconds(65);
    TenMinutes(600);
    MinusFiveSeconds(-5);
  }
}
