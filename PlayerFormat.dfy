/**
 * The two pure helpers of script.js: `formatTime`, which renders a playback
 * position in seconds as `m:ss`, and the threshold rule of `updateVolumeIcon`.
 */
module PlayerFormat {
  import opened Wrappers

  /** A JavaScript number as `formatTime` receives it: NaN or a finite value. */
  datatype JsNumber = NaN | Finite(x: real)

  predicate IsDigit(c: char) {
    '0' <= c <= '9'
  }

  predicate AllDigits(s: string) {
    forall i :: 0 <= i < |s| ==> IsDigit(s[i])
  }

  function DigitChar(d: int): (c: char)
    requires 0 <= d < 10
    ensures IsDigit(c)
  {
    ('0' as int + d) as char
  }

  /** `toString()` of a non-negative whole number: its decimal digits, no leading zero. */
  function NatToString(n: nat): (s: string)
    ensures |s| >= 1 && AllDigits(s)
    ensures n < 10 <==> |s| == 1
    ensures |s| > 1 ==> s[0] != '0'
  {
    if n < 10 then [DigitChar(n)] else NatToString(n / 10) + [DigitChar(n % 10)]
  }

  /** `toString()` of a whole number, with a leading minus sign when negative. */
  function IntToString(n: int): string {
    if n < 0 then "-" + NatToString(-n) else NatToString(n)
  }

  /** `padStart(2, '0')`. */
  function PadStart2(s: string): string {
    if |s| < 2 then "0" + s else s
  }

  /** Rounding toward zero, as the quotient inside JavaScript's `%` does. */
  function Trunc(y: real): int {
    if y >= 0.0 then y.Floor else -((-y).Floor)
  }

  /** JavaScript's `%`: the remainder takes the sign of the dividend. */
  function JsRem(x: real, m: real): real
    requires m != 0.0
  {
    x - m * (Trunc(x / m) as real)
  }

  /**
   * `formatTime(seconds)`: "0:00" for 0 and NaN, otherwise
   * `Math.floor(seconds / 60)`, a colon, and `Math.floor(seconds % 60)` padded to two characters.
   */
  function FormatTime(t: JsNumber): (clock: string)
    ensures t == NaN || t == Finite(0.0) ==> clock == "0:00"
  {
    match t
    case NaN => "0:00"
    case Finite(x) =>
      if x == 0.0 then "0:00"
      else IntToString((x / 60.0).Floor) + ":" + PadStart2(IntToString(JsRem(x, 60.0).Floor))
  }

  /** The decimal value of a digit string. */
  function ParseNat(s: string): nat
    requires AllDigits(s)
  {
    if s == [] then 0 else ParseNat(s[..|s| - 1]) * 10 + (s[|s| - 1] as int - '0' as int)
  }

  /** Reads an `m:ss` clock back as a number of whole seconds. */
  function ParseClock(s: string): Option<nat> {
    if |s| >= 4 && s[|s| - 3] == ':' && AllDigits(s[..|s| - 3]) && AllDigits(s[|s| - 2..])
    then Some(ParseNat(s[..|s| - 3]) * 60 + ParseNat(s[|s| - 2..]))
    else None
  }

  lemma {:induction false} NatToStringRoundTrip(n: nat)
    ensures ParseNat(NatToString(n)) == n
  {
    if n >= 10 {
      var s := NatToString(n);
      var prefix := NatToString(n / 10);
      assert s[..|s| - 1] == prefix;
      NatToStringRoundTrip(n / 10);
    }
  }

  /** The two-character seconds field reads back as the seconds. */
  lemma PaddedSeconds(r: nat)
    requires r < 60
    ensures var b := PadStart2(NatToString(r));
      |b| == 2 && AllDigits(b) && ParseNat(b) == r
  {
    var b := PadStart2(NatToString(r));
    if r < 10 {
      assert b[..1] == "0";
      assert ParseNat("0") == 0;
    } else {
      assert NatToString(r) == NatToString(r / 10) + [DigitChar(r % 10)];
      NatToStringRoundTrip(r);
    }
  }

  /** For a non-negative position, the minutes and seconds are the quotient and remainder of its whole seconds by 60. */
  lemma MinutesAndSeconds(x: real)
    requires x >= 0.0
    ensures (x / 60.0).Floor == x.Floor / 60
    ensures JsRem(x, 60.0).Floor == x.Floor % 60
  {
    var n := x.Floor;
    var q := n / 60;
    assert (q as real) * 60.0 <= n as real <= x;
    assert x < (n + 1) as real <= ((q + 1) as real) * 60.0;
    assert (q as real) <= x / 60.0 < (q + 1) as real;
    assert (x / 60.0).Floor == q;
    assert Trunc(x / 60.0) == q;
    var rem := x - 60.0 * (q as real);
    assert ((n - 60 * q) as real) <= rem < ((n - 60 * q + 1) as real);
  }

  /** For a positive whole number of seconds: minutes, a colon, then the seconds zero-padded to two digits. */
  lemma FormatTimeWhole(s: nat)
    requires s > 0
    ensures FormatTime(Finite(s as real)) == NatToString(s / 60) + ":" + PadStart2(NatToString(s % 60))
    ensures |PadStart2(NatToString(s % 60))| == 2
  {
    MinutesAndSeconds(s as real);
    PaddedSeconds(s % 60);
  }

  /** Reading the clock back gives the whole seconds of any non-negative position. */
  lemma FormatTimeRoundTrip(x: real)
    requires x >= 0.0
    ensures ParseClock(FormatTime(Finite(x))) == Some(x.Floor)
  {
    var s := FormatTime(Finite(x));
    if x == 0.0 {
      assert s[..1] == "0" && s[2..] == "00";
      assert ParseNat("0") == 0;
      assert "00"[..1] == "0";
    } else {
      MinutesAndSeconds(x);
      var q, r := x.Floor / 60, x.Floor % 60;
      var a, b := NatToString(q), PadStart2(NatToString(r));
      PaddedSeconds(r);
      assert s == a + ":" + b;
      assert s[..|s| - 3] == a;
      assert s[|s| - 2..] == b;
      NatToStringRoundTrip(q);
    }
  }

  /** A worked example, for documentation: a negative position keeps JavaScript's signs, so -5 seconds renders as "-1:-5". */
  lemma FormatTimeNegative()
    ensures FormatTime(Finite(-5.0)) == "-1:-5"
  {
    assert (-5.0 / 60.0).Floor == -1;
    assert Trunc(-5.0 / 60.0) == 0;
    assert JsRem(-5.0, 60.0).Floor == -5;
    assert IntToString(-1) == "-1" && IntToString(-5) == "-5";
  }

  /** The three icon classes of the volume button. */
  datatype VolumeIcon = Mute | Down | Up {
    function ClassName(): string {
      match this
      case Mute => "fas fa-volume-mute volume-icon"
      case Down => "fas fa-volume-down volume-icon"
      case Up => "fas fa-volume-up volume-icon"
    }
  }

  /**
   * `updateVolumeIcon` for slider position `v`: the slider's value is the
   * string `NatToString(v)`, compared with '0' as a string and with 50 as a number.
   */
  function IconFor(v: nat): (icon: VolumeIcon)
    ensures icon == Mute <==> v == 0
    ensures icon == Down <==> 0 < v < 50
    ensures icon == Up <==> v >= 50
  {
    if NatToString(v) == "0" then Mute else if v < 50 then Down else Up
  }

  /** A louder slider position never shows a quieter icon. */
  lemma IconMonotone(v: nat, w: nat)
    requires v <= w
    ensures IconFor(v) == Up ==> IconFor(w) == Up
    ensures IconFor(w) == Mute ==> IconFor(v) == Mute
  {
  }
}
