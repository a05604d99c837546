/**
 * The "hours and minutes" label three screens print for a number of minutes:
 * `${Math.floor(min / 60)} h ${min % 60} min` (the clock-in screen, the
 * calendar and the history all write it this way). `Math.floor` is floor
 * division and `%` keeps the sign of the dividend, as in JavaScript.
 */
module Durations {
  import opened Base
  import opened Strings

  /** JavaScript's `a % b` for a positive divisor: the remainder takes the sign of `a`. */
  function JsRem(a: int, b: int): (r: int)
    requires b > 0
    ensures a >= 0 ==> r == a % b
    ensures a < 0 ==> -b < r <= 0
  {
    if a >= 0 then a % b else -((-a) % b)
  }

  /** JavaScript's `Math.trunc(a / b)` for a positive divisor: the quotient rounded toward zero. */
  function JsQuot(a: int, b: int): int
    requires b > 0
  {
    if a >= 0 then a / b else -((-a) / b)
  }

  /**
   * `a` is the truncated quotient times `b` plus the remainder; with the
   * remainder's range and sign this fixes its value for every `a`.
   */
  lemma JsRemQuot(a: int, b: int)
    requires b > 0
    ensures a == b * JsQuot(a, b) + JsRem(a, b)
    ensures JsQuot(a, b) == 0 ==> JsRem(a, b) == a
  {
    var n := if a >= 0 then a else -a;
    var q := n / b;
    assert n == b * q + n % b;
    if a < 0 {
      assert b * JsQuot(a, b) == -(b * q);
    }
  }

  /** `minToHoras` / `minutosAHoras` / `minutosToHoras`. */
  function MinToHoras(min: int): string {
    IntToString(min / 60) + " h " + IntToString(JsRem(min, 60)) + " min"
  }

  /** Reads a label of the form "H h M min" back into minutes. */
  function ReadHoras(s: string): Option<int> {
    match ReadNat(s)
    case None => None
    case Some((h, r1)) => ReadHorasTail(h, r1)
  }

  /** What follows the hours: " h ", the minutes, " min". */
  function ReadHorasTail(h: nat, r1: string): Option<int> {
    match ExpectLit(r1, " h ")
    case None => None
    case Some(r2) =>
      match ReadNat(r2)
      case None => None
      case Some((m, r3)) => if r3 == " min" then Some(h * 60 + m) else None
  }

  /** For a non-negative count the label shows whole hours and the remaining minutes below 60. */
  lemma MinToHorasParts(n: nat)
    ensures MinToHoras(n) == NatToString(n / 60) + " h " + NatToString(n % 60) + " min"
    ensures n % 60 < 60 && (n / 60) * 60 + n % 60 == n
  {
  }

  /** Reads the label built from an hour count and a minute count. */
  lemma ReadHorasOf(h: nat, m: nat)
    ensures ReadHoras(NatToString(h) + " h " + NatToString(m) + " min") == Some(h * 60 + m)
  {
    Regroup(NatToString(h), " h ", NatToString(m), " min");
    ReadNatString(h, " h " + NatToString(m) + " min");
    ReadHorasTailOf(h, m);
  }

  lemma ReadHorasTailOf(h: nat, m: nat)
    ensures ReadHorasTail(h, " h " + NatToString(m) + " min") == Some(h * 60 + m)
  {
    var r2 := NatToString(m) + " min";
    Regroup3(" h ", NatToString(m), " min");
    ExpectLitPrefix(" h ", r2);
    assert ExpectLit(" h " + r2, " h ") == Some(r2);
    ReadNatString(m, " min");
    assert ReadNat(r2) == Some((m, " min"));
  }

  /** Reading the label of a non-negative count gives the count back. */
  lemma MinToHorasRoundTrip(n: nat)
    ensures ReadHoras(MinToHoras(n)) == Some(n)
  {
    MinToHorasParts(n);
    ReadHorasOf(n / 60, n % 60);
  }

  /** Distinct non-negative counts get distinct labels. */
  lemma MinToHorasInjective(a: nat, b: nat)
    requires MinToHoras(a) == MinToHoras(b)
    ensures a == b
  {
    MinToHorasRoundTrip(a);
    MinToHorasRoundTrip(b);
  }
}
