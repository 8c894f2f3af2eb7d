/**
 * The `m:ss` rendering the three components share:
 * `${Math.floor(s / 60)}:${(s % 60).toString().padStart(2, '0')}`.
 */
module Clock {
  import opened Wrappers
  import opened Text

  /** Joins already rendered minutes and seconds, padding the seconds to two characters with '0'. */
  function Render(mins: string, secs: string): string {
    mins + ":" + PadStart(secs, 2, '0')
  }

  /** `m:ss` for a whole, non-negative number of seconds. */
  function FormatClock(n: nat): string {
    Render(NatToDecimal(n / 60), NatToDecimal(n % 60))
  }

  /**
   * Reads an `m:ss` text: decimal minutes, the first colon, then exactly two
   * second digits. The independent reading against which `FormatClock` is proved.
   */
  function ParseClock(s: string): Option<(nat, nat)> {
    match IndexOf(s, ":")
    case None => None
    case Some(k) =>
      var m := s[..k];
      var t := s[k + 1..];
      if 1 <= |m| && AllDigits(m) && |t| == 2 && AllDigits(t) then
        Some((DecimalValue(m), DecimalValue(t)))
      else None
  }

  /** The two-character seconds field of `FormatClock` reads back as the seconds. */
  lemma PaddedSeconds(sec: nat)
    requires sec < 60
    ensures var t := PadStart(NatToDecimal(sec), 2, '0');
            |t| == 2 && AllDigits(t) && DecimalValue(t) == sec
  {
    var d := NatToDecimal(sec);
    DecimalLength(sec);
    DecimalRoundTrip(sec);
    if sec < 10 {
      assert PadStart(d, 2, '0') == "0" + d;
      DecimalLeadingZero(d);
    }
  }

  /** A digit string, a colon and two digits parse as the two numbers. */
  lemma ParseFields(m: string, t: string)
    requires 1 <= |m| && AllDigits(m) && |t| == 2 && AllDigits(t)
    ensures ParseClock(m + ":" + t) == Some((DecimalValue(m), DecimalValue(t)))
  {
    var s := m + ":" + t;
    OccursAfterPrefix(m, ":", t);
    forall j | 0 <= j < |m| ensures !OccursAt(s, ":", j) {
      assert s[j] == m[j];
      assert s[j..j + 1][0] == s[j];
    }
    assert IndexOf(s, ":") == Some(|m|);
    assert s[..|m|] == m;
    assert s[|m| + 1..] == t;
  }

  /**
   * `FormatClock(n)` reads back as minutes `n / 60` and two-digit seconds
   * `n % 60`; so `60 * m + s == n` and `s` lies in 0..59.
   */
  lemma ClockRoundTrip(n: nat)
    ensures ParseClock(FormatClock(n)) == Some((n / 60, n % 60))
  {
    DecimalRoundTrip(n / 60);
    PaddedSeconds(n % 60);
    ParseFields(NatToDecimal(n / 60), PadStart(NatToDecimal(n % 60), 2, '0'));
  }

  /** `Math.trunc(a / b)`: the quotient rounded toward zero. */
  function JsTrunc(a: int, b: int): (q: int)
    requires b > 0
    ensures 0 <= a ==> q == a / b
    ensures a < 0 ==> q <= 0
  {
    if a >= 0 then a / b else -((-a) / b)
  }

  /**
   * JavaScript's integer `a % b`: the remainder left by the quotient rounded
   * toward zero, so it takes the sign of the dividend.
   */
  function JsRem(a: int, b: int): (r: int)
    requires b > 0
    ensures 0 <= a ==> r == a % b
    ensures a < 0 ==> -b < r <= 0
    ensures a == JsTrunc(a, b) * b + r
  {
    if a >= 0 then a % b
    else
      assert -a == ((-a) / b) * b + (-a) % b;
      -((-a) % b)
  }

  /**
   * The rendering applied to an integer number of seconds with JavaScript's
   * arithmetic: `Math.floor(n / 60)` and `n % 60`, both possibly negative.
   */
  function FormatSeconds(n: int): (r: string)
    ensures 0 <= n ==> r == FormatClock(n)
  {
    Render(IntToDecimal(n / 60), IntToDecimal(JsRem(n, 60)))
  }
}
