/**
 * Clock times as the front end exchanges them: "HH:MM" strings from
 * `<input type="time">` and from the clock-in records. `split(":").map(Number)`
 * reads them; string comparison orders them.
 */
module Clock {
  import opened Base
  import opened Strings
  import opened JsNumber

  /** The "HH:MM" string of a time of day: hours and minutes padded to two digits. */
  function TimeString(h: nat, m: nat): (t: string)
    requires h < 24 && m < 60
    ensures |t| == 5 && t[2] == ':'
  {
    Pad2Value(h);
    Pad2Value(m);
    PadStart2(NatToString(h)) + ":" + PadStart2(NatToString(m))
  }

  /** `const [h, m] = t.split(":").map(Number); h * 60 + m`, with `None` for `NaN`. */
  function ClockMinutes(t: string): Option<int> {
    MinutesOfParts(Split(t, ':'))
  }

  function MinutesOfParts(parts: seq<string>): Option<int>
    requires |parts| >= 1
  {
    var h := NumberAsInt(parts[0]);
    var m := if |parts| >= 2 then NumberAsInt(parts[1]) else None;
    if h.Some? && m.Some? then Some(h.value * 60 + m.value) else None
  }

  /** Two numbers around a colon read as hours and minutes. */
  lemma ClockMinutesOfParts(t: string, hs: string, ms: string, h: int, m: int)
    requires t == hs + [':'] + ms && ':' !in hs && ':' !in ms
    requires NumberAsInt(hs) == Some(h) && NumberAsInt(ms) == Some(m)
    ensures ClockMinutes(t) == Some(h * 60 + m)
  {
    Split2(hs, ms, ':');
    MinutesOfTwoParts(hs, ms, h, m);
  }

  lemma MinutesOfTwoParts(hs: string, ms: string, h: int, m: int)
    requires NumberAsInt(hs) == Some(h) && NumberAsInt(ms) == Some(m)
    ensures MinutesOfParts([hs, ms]) == Some(h * 60 + m)
  {
    assert [hs, ms][0] == hs && [hs, ms][1] == ms;
  }

  /** A number below 100 padded to two places is its two digits. */
  lemma Pad2Digits(n: nat)
    requires n < 100
    ensures PadStart2(NatToString(n)) == [DigitChar(n / 10), DigitChar(n % 10)]
  {
    if n >= 10 {
      assert NatToString(n / 10) == [DigitChar(n / 10)];
    }
  }

  /** Reading the string of a time gives its minutes since midnight. */
  lemma ClockMinutesOfTime(h: nat, m: nat)
    requires h < 24 && m < 60
    ensures ClockMinutes(TimeString(h, m)) == Some(h * 60 + m)
  {
    var hs, ms := PadStart2(NatToString(h)), PadStart2(NatToString(m));
    Pad2Digits(h);
    Pad2Digits(m);
    NumberOfPadded(h);
    NumberOfPadded(m);
    ClockMinutesOfParts(TimeString(h, m), hs, ms, h, m);
  }

  /** String order on five-character strings, position by position. */
  lemma StrLeFive(a: string, b: string)
    requires |a| == 5 && |b| == 5
    ensures StrLe(a, b) <==>
      a[0] < b[0] || (a[0] == b[0] && (a[1] < b[1] || (a[1] == b[1] && (a[2] < b[2] || (a[2] == b[2] &&
      (a[3] < b[3] || (a[3] == b[3] && a[4] <= b[4])))))))
  {
    var a1, b1 := a[1..], b[1..];
    var a2, b2 := a1[1..], b1[1..];
    var a3, b3 := a2[1..], b2[1..];
    var a4, b4 := a3[1..], b3[1..];
    assert a1[0] == a[1] && a2[0] == a[2] && a3[0] == a[3] && a4[0] == a[4];
    assert b1[0] == b[1] && b2[0] == b[2] && b3[0] == b[3] && b4[0] == b[4];
    StrLeCons(a, b);
    StrLeCons(a1, b1);
    StrLeCons(a2, b2);
    StrLeCons(a3, b3);
    StrLeCons(a4, b4);
  }


  lemma DigitCharOrder(x: nat, y: nat)
    requires x < 10 && y < 10
    ensures DigitChar(x) < DigitChar(y) <==> x < y
    ensures DigitChar(x) == DigitChar(y) <==> x == y
  {
  }

  /** For the strings of two times, string order is time order. */
  lemma TimeOrder(h1: nat, m1: nat, h2: nat, m2: nat)
    requires h1 < 24 && m1 < 60 && h2 < 24 && m2 < 60
    ensures StrLe(TimeString(h1, m1), TimeString(h2, m2)) <==> h1 * 60 + m1 <= h2 * 60 + m2
  {
    Pad2Digits(h1);
    Pad2Digits(m1);
    Pad2Digits(h2);
    Pad2Digits(m2);
    var a, b := TimeString(h1, m1), TimeString(h2, m2);
    assert a == [DigitChar(h1 / 10), DigitChar(h1 % 10), ':', DigitChar(m1 / 10), DigitChar(m1 % 10)];
    assert b == [DigitChar(h2 / 10), DigitChar(h2 % 10), ':', DigitChar(m2 / 10), DigitChar(m2 % 10)];
    StrLeFive(a, b);
    DigitCharOrder(h1 / 10, h2 / 10);
    DigitCharOrder(h1 % 10, h2 % 10);
    DigitCharOrder(m1 / 10, m2 / 10);
    DigitCharOrder(m1 % 10, m2 % 10);
    assert h1 == 10 * (h1 / 10) + h1 % 10 && h2 == 10 * (h2 / 10) + h2 % 10;
    assert m1 == 10 * (m1 / 10) + m1 % 10 && m2 == 10 * (m2 / 10) + m2 % 10;
  }
}
