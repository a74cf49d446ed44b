/** The call clock: `formatTime` of src/lib/utils/elevenlabs-call.ts turns a
    count of elapsed seconds into "MM:SS". `String(n)` is NatToString,
    `padStart(2, "0")` is PadStart, and ParseTime is the inverse used to state
    that no information is lost. */
module TimeFormat {
  import opened Wrappers

  predicate IsDigit(c: char) {
    '0' <= c <= '9'
  }

  predicate AllDigits(s: string) {
    forall i :: 0 <= i < |s| ==> IsDigit(s[i])
  }

  function DigitValue(c: char): nat
    requires IsDigit(c)
  {
    c as int - '0' as int
  }

  function DigitChar(d: nat): (c: char)
    requires d < 10
    ensures IsDigit(c) && DigitValue(c) == d
  {
    ('0' as int + d) as char
  }

  /** The value of a run of decimal digits; leading zeros are allowed. */
  function ParseDigits(s: string): (v: nat)
    requires AllDigits(s)
  {
    if s == [] then 0 else ParseDigits(s[..|s| - 1]) * 10 + DigitValue(s[|s| - 1])
  }

  /** `String(n)` for a non-negative integer: its decimal notation, a single
      character exactly for the numbers below 10. */
  function NatToString(n: nat): (r: string)
    ensures |r| >= 1 && (|r| == 1 <==> n < 10)
  {
    if n < 10 then [DigitChar(n)] else NatToString(n / 10) + [DigitChar(n % 10)]
  }

  /** `String(n)` is a run of digits worth n, without leading zeros, and at
      most two characters long exactly below 100. */
  lemma {:induction false} NatToStringDigits(n: nat)
    ensures |NatToString(n)| >= 1 && AllDigits(NatToString(n))
    ensures ParseDigits(NatToString(n)) == n
    ensures NatToString(n)[0] == '0' ==> n == 0
    ensures |NatToString(n)| <= 2 <==> n < 100
  {
    if n >= 10 {
      var front := NatToString(n / 10);
      var s := NatToString(n);
      NatToStringDigits(n / 10);
      assert s == front + [DigitChar(n % 10)];
      assert s[..|s| - 1] == front;
    }
  }

  /** `s.padStart(width, fill)` with a one-character fill: prepends fill until
      the length reaches width. It never truncates: the result is width
      long when s was shorter, s itself otherwise, and it ends with s. */
  function PadStart(s: string, width: nat, fill: char): (r: string)
    ensures |r| >= width && |r| >= |s|
    decreases width - |s|
  {
    if |s| >= width then s else PadStart([fill] + s, width, fill)
  }

  /** padStart only pads: the result is width long when s was shorter, s
      itself otherwise, and it ends with s after a run of fill characters. */
  lemma {:induction false} PadStartShape(s: string, width: nat, fill: char)
    ensures |PadStart(s, width, fill)| == if |s| < width then width else |s|
    ensures PadStart(s, width, fill)[|PadStart(s, width, fill)| - |s|..] == s
    ensures forall i :: 0 <= i < |PadStart(s, width, fill)| - |s| ==> PadStart(s, width, fill)[i] == fill
    decreases width - |s|
  {
    if |s| < width {
      var r := PadStart([fill] + s, width, fill);
      PadStartShape([fill] + s, width, fill);
      assert r[|r| - |s|..] == ([fill] + s)[1..];
    }
  }

  /** The minutes field: `String(Math.floor(t / 60)).padStart(2, "0")`, at
      least two characters and ending with the decimal minute count. */
  function MinutesField(t: nat): (r: string)
    ensures |r| >= 2
  {
    PadStart(NatToString(t / 60), 2, '0')
  }

  /** The seconds field: `String(t % 60).padStart(2, "0")`, always exactly
      two characters. */
  function SecondsField(t: nat): (r: string)
    ensures |r| == 2
  {
    NatToStringDigits(t % 60);
    PadStartShape(NatToString(t % 60), 2, '0');
    PadStart(NatToString(t % 60), 2, '0')
  }

  /** `formatTime(totalSeconds)`. Math.floor of a non-negative quotient is
      integer division, and `%` agrees with Dafny's on non-negative operands.
      The colon always sits three characters from the end. */
  function FormatTime(totalSeconds: nat): (r: string)
    ensures |r| >= 5 && r[|r| - 3] == ':'
  {
    MinutesField(totalSeconds) + ":" + SecondsField(totalSeconds)
  }

  /** Reads "M…M:SS" back into a number of seconds: at least one minute
      digit, a colon, exactly two second digits worth less than 60. */
  function ParseTime(t: string): (r: Option<nat>)
    ensures r.Some? ==> |t| >= 4 && t[|t| - 3] == ':'
  {
    if |t| >= 4 && t[|t| - 3] == ':' && AllDigits(t[..|t| - 3]) && AllDigits(t[|t| - 2..])
       && ParseDigits(t[|t| - 2..]) < 60
    then Some(ParseDigits(t[..|t| - 3]) * 60 + ParseDigits(t[|t| - 2..]))
    else None
  }

  /** A leading zero does not change the value of a digit run. */
  lemma {:induction false} LeadingZero(s: string)
    requires AllDigits(s)
    ensures AllDigits(['0'] + s) && ParseDigits(['0'] + s) == ParseDigits(s)
  {
    var z := ['0'] + s;
    if s != [] {
      assert z[..|z| - 1] == ['0'] + s[..|s| - 1];
      LeadingZero(s[..|s| - 1]);
    }
  }

  /** Zero-padding keeps a digit run a digit run and keeps its value. */
  lemma {:induction false} PadKeepsValue(s: string, width: nat)
    requires AllDigits(s)
    ensures AllDigits(PadStart(s, width, '0'))
    ensures ParseDigits(PadStart(s, width, '0')) == ParseDigits(s)
    decreases width - |s|
  {
    if |s| < width {
      LeadingZero(s);
      PadKeepsValue(['0'] + s, width);
    }
  }

  /** The seconds field is always two digits from "00" to "59" and holds
      t % 60. */
  lemma SecondsFieldRange(t: nat)
    ensures |SecondsField(t)| == 2
    ensures '0' <= SecondsField(t)[0] <= '5' && IsDigit(SecondsField(t)[1])
    ensures AllDigits(SecondsField(t)) && ParseDigits(SecondsField(t)) == t % 60
  {
    var sec := t % 60;
    var f := SecondsField(t);
    NatToStringDigits(sec);
    PadStartShape(NatToString(sec), 2, '0');
    PadKeepsValue(NatToString(sec), 2);
    if sec < 10 {
      assert NatToString(sec) == [DigitChar(sec)];
      assert f == ['0'] + NatToString(sec);
    } else {
      assert NatToString(sec / 10) == [DigitChar(sec / 10)];
      assert f == NatToString(sec) == [DigitChar(sec / 10), DigitChar(sec % 10)];
    }
  }

  /** The minutes field holds t / 60, is at least two characters long, and is
      exactly `String(t / 60)` once that has two digits or more: padStart
      pads, it never truncates. */
  lemma MinutesFieldValue(t: nat)
    ensures |MinutesField(t)| >= 2
    ensures AllDigits(MinutesField(t)) && ParseDigits(MinutesField(t)) == t / 60
    ensures t / 60 >= 10 ==> MinutesField(t) == NatToString(t / 60)
    ensures |MinutesField(t)| == 2 <==> t < 6000
  {
    NatToStringDigits(t / 60);
    PadStartShape(NatToString(t / 60), 2, '0');
    PadKeepsValue(NatToString(t / 60), 2);
  }

  /** Where the parts of "m:s" lie, for a two-character seconds part. */
  lemma ClockParts(m: string, sec: string)
    requires |sec| == 2
    ensures |m + ":" + sec| == |m| + 3
    ensures (m + ":" + sec)[|m|] == ':'
    ensures (m + ":" + sec)[..|m|] == m
    ensures (m + ":" + sec)[|m| + 1..] == sec
    ensures (m + ":" + sec)[|m| + 1] == sec[0] && (m + ":" + sec)[|m| + 2] == sec[1]
  {
  }

  /** ParseTime reads "m:s" back as t when m holds t / 60 and s holds
      t % 60 in two digits. */
  lemma ReadClock(m: string, sec: string, t: nat)
    requires |m| >= 1 && AllDigits(m) && ParseDigits(m) == t / 60
    requires |sec| == 2 && AllDigits(sec) && ParseDigits(sec) == t % 60
    ensures ParseTime(m + ":" + sec) == Some(t)
  {
    ClockParts(m, sec);
  }

  /** The shape of every clock string: minutes, a colon three characters from
      the end, and a seconds field from "00" to "59". */
  lemma FormatTimeLayout(t: nat)
    ensures |FormatTime(t)| >= 5
    ensures FormatTime(t)[|FormatTime(t)| - 3] == ':'
    ensures FormatTime(t)[..|FormatTime(t)| - 3] == MinutesField(t)
    ensures FormatTime(t)[|FormatTime(t)| - 2..] == SecondsField(t)
    ensures '0' <= FormatTime(t)[|FormatTime(t)| - 2] <= '5'
    ensures IsDigit(FormatTime(t)[|FormatTime(t)| - 1])
  {
    PadStartShape(NatToString(t / 60), 2, '0');
    SecondsFieldRange(t);
    ClockParts(MinutesField(t), SecondsField(t));
  }

  /** Below 100 minutes the clock is exactly "MM:SS". */
  lemma FormatTimeFixedWidth(t: nat)
    requires t < 6000
    ensures |FormatTime(t)| == 5 && FormatTime(t)[2] == ':'
  {
    FormatTimeLayout(t);
    MinutesFieldValue(t);
  }

  /** From 100 minutes on the minutes field is the full decimal count and
      the clock grows beyond five characters. */
  lemma FormatTimeMinutesNotTruncated(t: nat)
    requires t >= 6000
    ensures |FormatTime(t)| > 5
    ensures FormatTime(t)[..|FormatTime(t)| - 3] == NatToString(t / 60)
  {
  }

  /** Reading the clock back gives the seconds count, for every count. */
  lemma FormatTimeRoundTrip(t: nat)
    ensures ParseTime(FormatTime(t)) == Some(t)
  {
    MinutesFieldValue(t);
    SecondsFieldRange(t);
    ReadClock(MinutesField(t), SecondsField(t), t);
  }

  /** Distinct counts show distinct clocks. */
  lemma FormatTimeInjective(a: nat, b: nat)
    requires FormatTime(a) == FormatTime(b)
    ensures a == b
  {
    FormatTimeRoundTrip(a);
    FormatTimeRoundTrip(b);
  }

  /** The initial and reset value of the clock. */
  lemma FormatTimeZero()
    ensures FormatTime(0) == "00:00"
  {
  }
}
