/**
 * The text read-outs of the player: the "m:ss" time labels produced by
 * formatTime and the volume percentage label. JavaScript renders a
 * whole number below 10^21 in a template literal as plain decimal digits
 * with no sign and no leading zeros; NatToString is that rendering.
 */
module Format {

  datatype Option<T> = None | Some(value: T)

  predicate IsDigit(c: char) {
    '0' <= c <= '9'
  }

  predicate IsDigits(s: string) {
    forall i :: 0 <= i < |s| ==> IsDigit(s[i])
  }

  /** A digit string without a superfluous leading zero ("0" itself is fine). */
  predicate IsCanonical(s: string) {
    |s| >= 1 && IsDigits(s) && (|s| > 1 ==> s[0] != '0')
  }

  function DigitValue(c: char): (d: nat)
    requires IsDigit(c)
    ensures d < 10
  {
    c as int - '0' as int
  }

  function DigitChar(d: nat): (c: char)
    requires d < 10
    ensures IsDigit(c) && DigitValue(c) == d
  {
    (d + '0' as int) as char
  }

  /** The number a digit string denotes, most significant digit first. */
  function DigitsValue(s: string): nat
    requires IsDigits(s)
  {
    if s == [] then 0 else DigitsValue(s[..|s| - 1]) * 10 + DigitValue(s[|s| - 1])
  }

  /** Decimal rendering of a whole number. */
  function NatToString(n: nat): (r: string)
    ensures IsCanonical(r)
    ensures DigitsValue(r) == n
    ensures |r| == 1 <==> n < 10
  {
    if n < 10 then
      [DigitChar(n)]
    else
      var prefix := NatToString(n / 10);
      var r := prefix + [DigitChar(n % 10)];
      assert r[..|r| - 1] == prefix;
      r
  }

  /** A canonical digit string is the rendering of its own value. */
  lemma {:induction false} CanonicalIsRendering(s: string)
    requires IsCanonical(s)
    ensures NatToString(DigitsValue(s)) == s
  {
    if |s| > 1 {
      var p := s[..|s| - 1];
      assert IsCanonical(p);
      LeadingDigitPositive(p);
      CanonicalIsRendering(p);
      var n := DigitsValue(s);
      assert n / 10 == DigitsValue(p) && n % 10 == DigitValue(s[|s| - 1]);
      assert s == p + [s[|s| - 1]];
    }
  }

  lemma {:induction false} LeadingDigitPositive(s: string)
    requires IsDigits(s) && |s| >= 1 && s[0] != '0'
    ensures DigitsValue(s) >= 1
  {
    if |s| > 1 {
      var p := s[..|s| - 1];
      assert p[0] == s[0];
      LeadingDigitPositive(p);
    }
  }

  /**
   * The seconds field of formatTime: a "0" when the value is below 10,
   * then the value itself.
   */
  function SecondsField(secs: nat): (r: string)
    requires secs < 60
    ensures |r| == 2 && IsDigits(r) && DigitsValue(r) == secs
  {
    var r := (if secs < 10 then "0" else "") + NatToString(secs);
    assert secs < 10 ==> r[..1] == "0";
    r
  }

  /**
   * formatTime over whole seconds: the minutes, a colon and the seconds
   * within the minute on two digits. Minutes are never reduced into hours.
   */
  function FormatTime(seconds: nat): (r: string)
    ensures |r| >= 4 && r[|r| - 3] == ':'
    ensures IsCanonical(r[..|r| - 3]) && DigitsValue(r[..|r| - 3]) == seconds / 60
    ensures IsDigits(r[|r| - 2..]) && DigitsValue(r[|r| - 2..]) == seconds % 60
  {
    var mins := NatToString(seconds / 60);
    var secs := SecondsField(seconds % 60);
    var r := mins + ":" + secs;
    assert r[..|r| - 3] == mins && r[|r| - 2..] == secs;
    r
  }

  /** Reads an "m:ss" label back into seconds; None for anything else. */
  function ParseTime(t: string): Option<nat>
  {
    if |t| >= 4 && t[|t| - 3] == ':' && IsDigits(t[..|t| - 3])
       && IsDigits(t[|t| - 2..]) && DigitsValue(t[|t| - 2..]) < 60
    then Some(DigitsValue(t[..|t| - 3]) * 60 + DigitsValue(t[|t| - 2..]))
    else None
  }

  /** A label as formatTime writes them: minutes without leading zeros. */
  predicate MinutesCanonical(t: string) {
    |t| >= 4 && (|t| > 4 ==> t[0] != '0')
  }

  lemma FormatTimeRoundTrip(seconds: nat)
    ensures ParseTime(FormatTime(seconds)) == Some(seconds)
  {
  }

  /**
   * The labels formatTime produces are exactly the readable labels with
   * canonical minutes, and each names one number of seconds.
   */
  lemma FormatTimeExactly(seconds: nat, t: string)
    ensures FormatTime(seconds) == t <==> ParseTime(t) == Some(seconds) && MinutesCanonical(t)
  {
    if FormatTime(seconds) == t {
      FormatTimeRoundTrip(seconds);
    }
    if ParseTime(t) == Some(seconds) && MinutesCanonical(t) {
      ParsedLabelIsFormatted(t);
    }
  }

  /** A readable label with canonical minutes is what formatTime writes for its value. */
  lemma ParsedLabelIsFormatted(t: string)
    requires ParseTime(t).Some? && MinutesCanonical(t)
    ensures FormatTime(ParseTime(t).value) == t
  {
    var m, s := t[..|t| - 3], t[|t| - 2..];
    assert |m| >= 1 && (|m| > 1 ==> m[0] == t[0]);
    CanonicalIsRendering(m);
    SecondsFieldUnique(s);
    var mv, sv := DigitsValue(m), DigitsValue(s);
    var seconds := ParseTime(t).value;
    assert seconds == mv * 60 + sv;
    SplitSeconds(mv, sv);
    assert FormatTime(seconds) == NatToString(mv) + ":" + SecondsField(sv);
    assert t == m + [':'] + s;
  }

  /** Minutes and seconds within the minute are recovered from the total. */
  lemma SplitSeconds(mins: nat, secs: nat)
    requires secs < 60
    ensures (mins * 60 + secs) / 60 == mins && (mins * 60 + secs) % 60 == secs
  {
  }

  /** Two digits worth less than 60 are the seconds field of their value. */
  lemma SecondsFieldUnique(s: string)
    requires |s| == 2 && IsDigits(s) && DigitsValue(s) < 60
    ensures SecondsField(DigitsValue(s)) == s
  {
    var v := DigitsValue(s);
    assert s[..1] == [s[0]];
    if v < 10 {
      assert s == "0" + NatToString(v);
    } else {
      CanonicalIsRendering(s);
    }
  }

  /** The label loadTrack resets to is the formatted zero position. */
  lemma FormatTimeZero()
    ensures FormatTime(0) == "0:00"
  {
    assert NatToString(0) == "0";
    assert SecondsField(0) == "00";
  }

  lemma FormatTimeOneMinute()
    ensures FormatTime(65) == "1:05"
  {
    assert NatToString(1) == "1";
    assert SecondsField(5) == "05";
  }

  /** Past an hour the minutes keep counting: there is no hour field. */
  lemma FormatTimePastAnHour()
    ensures FormatTime(3661) == "61:01"
  {
    assert NatToString(6) == "6";
    assert NatToString(61) == "61";
    assert SecondsField(1) == "01";
  }

  /**
   * The volume read-out: Math.round(slider * 100) followed by "%". The
   * slider moves in steps of 0.1 between 0 and 1, so it is held here as a
   * whole number of tenths, and the rounded percentage is ten times that.
   */
  function VolumeLabel(tenths: nat): (r: string)
    requires tenths <= 10
    ensures |r| >= 2 && r[|r| - 1] == '%'
    ensures IsCanonical(r[..|r| - 1]) && DigitsValue(r[..|r| - 1]) == 10 * tenths
  {
    var digits := NatToString(10 * tenths);
    var r := digits + "%";
    assert r[..|r| - 1] == digits;
    r
  }

  lemma VolumeLabelExamples()
    ensures VolumeLabel(0) == "0%"
    ensures VolumeLabel(7) == "70%"
    ensures VolumeLabel(10) == "100%"
  {
  }
}
