/** The `MM:SS` countdown text. PageTimer.tsx and DigitalTimer.tsx each define the same
    `formatTime`: minutes are `Math.floor(seconds / 60)` and seconds `seconds % 60`, each
    rendered with `toString().padStart(2, '0')` and joined by a colon. */
module Clock {
  import opened Js

  function FormatTime(seconds: int): (r: string)
    ensures |r| >= 5
  {
    var mins, secs := Pad2(FloorDiv(seconds, 60)), Pad2(JsRem(seconds, 60));
    mins + ":" + secs
  }

  /** Well-formed clock text: decimal minutes, a colon, exactly two decimal second digits. */
  predicate IsClockText(t: string)
  {
    && |t| >= 4
    && t[|t| - 3] == ':'
    && (forall i :: 0 <= i < |t| - 3 ==> IsDigit(t[i]))
    && IsDigit(t[|t| - 2]) && IsDigit(t[|t| - 1])
  }

  /** Reads clock text back into a number of seconds. */
  function ParseClock(t: string): (n: nat)
    requires IsClockText(t)
  {
    ParseDigits(t[..|t| - 3]) * 60 + SecondsField(t)
  }

  /** The value of the two digits after the colon. */
  function SecondsField(t: string): nat
    requires IsClockText(t)
  {
    ParseDigits(t[|t| - 2..])
  }

  lemma {:induction false} PaddedNatDigits(n: nat)
    ensures Pad2(n) == PadStart(NatToString(n), 2, '0')
    ensures forall i :: 0 <= i < |Pad2(n)| ==> IsDigit(Pad2(n)[i])
    ensures ParseDigits(Pad2(n)) == n
  {
    var p := Pad2(n);
    NatToStringRoundTrip(n);
    if n < 10 {
      assert p == ['0', DigitChar(n)];
      assert p[..1] == ['0'];
      assert ParseDigits(p[..1]) == 10 * ParseDigits([]) + DigitValue('0');
      DigitRoundTrip(n);
    }
  }

  lemma ClockTextOfParts(mt: string, st: string)
    requires |mt| >= 1 && |st| == 2
    requires forall i :: 0 <= i < |mt| ==> IsDigit(mt[i])
    requires forall i :: 0 <= i < |st| ==> IsDigit(st[i])
    ensures IsClockText(mt + ":" + st)
    ensures SecondsField(mt + ":" + st) == ParseDigits(st)
    ensures ParseClock(mt + ":" + st) == ParseDigits(mt) * 60 + ParseDigits(st)
  {
    var t := mt + ":" + st;
    assert t[..|t| - 3] == mt;
    assert t[|t| - 2..] == st;
    assert t[|t| - 3] == ':' && t[|t| - 2] == st[0] && t[|t| - 1] == st[1];
    forall i | 0 <= i < |t| - 3
      ensures IsDigit(t[i])
    {
      assert t[i] == mt[i];
    }
  }

  /** For a non-negative count the two fields are the padded quotient and remainder. */
  lemma FormatTimeParts(seconds: nat)
    ensures FormatTime(seconds) == Pad2(seconds / 60) + ":" + Pad2(seconds % 60)
  {
    assert FloorDiv(seconds, 60) == seconds / 60;
    assert JsRem(seconds, 60) == seconds % 60;
  }

  /** Padded minutes and seconds joined by a colon are clock text that reads back as
      `m * 60 + s`. */
  lemma PaddedPartsRoundTrip(m: nat, s: nat)
    requires s < 60
    ensures IsClockText(Pad2(m) + ":" + Pad2(s))
    ensures SecondsField(Pad2(m) + ":" + Pad2(s)) == s
    ensures ParseClock(Pad2(m) + ":" + Pad2(s)) == m * 60 + s
  {
    PaddedNatDigits(m);
    PaddedNatDigits(s);
    Pad2Small(s);
    ClockTextOfParts(Pad2(m), Pad2(s));
  }

  /** For every non-negative count of seconds the text is well formed, its seconds field
      is the remainder modulo 60 (so always 00..59), and reading it back gives the count. */
  lemma {:induction false} FormatTimeRoundTrip(seconds: nat)
    ensures IsClockText(FormatTime(seconds))
    ensures SecondsField(FormatTime(seconds)) == seconds % 60 < 60
    ensures ParseClock(FormatTime(seconds)) == seconds
  {
    FormatTimeParts(seconds);
    PaddedPartsRoundTrip(seconds / 60, seconds % 60);
  }

  /** Below 100 minutes the text is exactly five characters, `MM:SS`. */
  lemma FormatTimeWidth(seconds: nat)
    requires seconds < 6000
    ensures |FormatTime(seconds)| == 5
  {
    Pad2Small(seconds / 60);
    Pad2Small(seconds % 60);
  }
}
