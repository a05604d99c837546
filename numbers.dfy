/**
 * JavaScript's `Number(string)` and `String(number)` restricted to the values the
 * sales ledger handles: amounts with at most two decimals, held as integer
 * hundredths (cents). `None` stands for `NaN`.
 */
module JsNumber {
  import opened Base
  import opened Strings

  /** Value of a fractional part of at most two digits, in hundredths. */
  function FracCents(f: string): (c: nat)
    requires AllDigits(f) && |f| <= 2
    ensures c < 100
  {
    if |f| == 0 then 0
    else if |f| == 1 then 10 * DigitValue(f[0])
    else 10 * DigitValue(f[0]) + DigitValue(f[1])
  }

  /** An unsigned decimal literal `ddd`, `ddd.`, `.d`, `ddd.dd`, in hundredths. */
  function UnsignedCents(body: string): Option<nat> {
    var parts := Split(body, '.');
    if |parts| == 1 then
      if body != "" && AllDigits(body) then Some(DecimalValue(body) * 100) else None
    else if |parts| == 2 then
      var i, f := parts[0], parts[1];
      if AllDigits(i) && AllDigits(f) && (i != "" || f != "") && |f| <= 2
      then Some(DecimalValue(i) * 100 + FracCents(f))
      else None
    else None
  }

  /** A trimmed numeric literal with an optional sign, in hundredths. */
  function SignedCents(t: string): Option<int> {
    if t == "" then Some(0)
    else if t[0] == '-' || t[0] == '+' then
      match UnsignedCents(t[1..])
      case Some(c) => var v: int := c; Some(if t[0] == '-' then -v else v)
      case None => None
    else
      match UnsignedCents(t)
      case Some(c) => Some(c)
      case None => None
  }

  /** `Number(s)` in hundredths: surrounding white space is ignored and `""` is 0. */
  function Number(s: string): (r: Option<int>)
    ensures Trim(s) == "" ==> r == Some(0)
  {
    SignedCents(Trim(s))
  }

  /** `Number(s)` where only integral values are of interest (date parts). */
  function NumberAsInt(s: string): (r: Option<int>)
    ensures r.Some? ==> Number(s) == Some(r.value * 100)
  {
    match Number(s)
    case Some(c) => if c % 100 == 0 then Some(c / 100) else None
    case None => None
  }

  /** The digits of a fraction of `f` hundredths with trailing zeros dropped. */
  function FracDigits(f: nat): (fs: string)
    requires 0 < f < 100
    ensures AllDigits(fs) && 1 <= |fs| <= 2 && FracCents(fs) == f
  {
    if f % 10 == 0 then [DigitChar(f / 10)]
    else [DigitChar(f / 10), DigitChar(f % 10)]
  }

  /** `String(x)` for a non-negative amount of `a` hundredths. */
  function UnsignedString(a: nat): string {
    NatToString(a / 100) + (if a % 100 == 0 then "" else "." + FracDigits(a % 100))
  }

  /** `String(x)` for an amount of `c` hundredths: no trailing zeros in the fraction. */
  function CentsToString(c: int): string {
    if c < 0 then "-" + UnsignedString(-c) else UnsignedString(c)
  }

  /** The characters of an amount string are digits and at most one point. */
  lemma UnsignedStringChars(a: nat)
    ensures forall i :: 0 <= i < |UnsignedString(a)| ==>
      IsDigit(UnsignedString(a)[i]) || UnsignedString(a)[i] == '.'
    ensures UnsignedString(a) != "" && IsDigit(UnsignedString(a)[0])
  {
  }

  lemma UnsignedStringValue(a: nat)
    ensures UnsignedCents(UnsignedString(a)) == Some(a)
  {
    var whole := NatToString(a / 100);
    NatToStringValue(a / 100);
    NatToStringHasNo(a / 100, '.');
    if a % 100 == 0 {
      assert UnsignedString(a) == whole;
      SplitNone(whole, '.');
      assert DecimalValue(whole) * 100 == a;
    } else {
      var fs := FracDigits(a % 100);
      assert '.' !in fs by { assert forall i :: 0 <= i < |fs| ==> IsDigit(fs[i]); }
      assert UnsignedString(a) == whole + ['.'] + fs;
      Split2(whole, fs, '.');
    }
  }

  lemma NoSpaceInAmount(s: string)
    requires forall i :: 0 <= i < |s| ==> IsDigit(s[i]) || s[i] == '.' || s[i] == '-'
    ensures Trim(s) == s
  {
    TrimNoSpace(s);
  }

  lemma SignedOfUnsigned(a: nat)
    ensures SignedCents(UnsignedString(a)) == Some(a)
    ensures SignedCents("-" + UnsignedString(a)) == Some(-(a as int))
  {
    var u := UnsignedString(a);
    UnsignedStringChars(a);
    UnsignedStringValue(a);
    var n := "-" + u;
    assert n[1..] == u;
  }

  lemma TrimAmount(a: nat)
    ensures Trim(UnsignedString(a)) == UnsignedString(a)
    ensures Trim("-" + UnsignedString(a)) == "-" + UnsignedString(a)
  {
    var u := UnsignedString(a);
    UnsignedStringChars(a);
    NoSpaceInAmount(u);
    var n := "-" + u;
    assert forall i :: 0 < i < |n| ==> n[i] == u[i - 1];
    NoSpaceInAmount(n);
  }

  /** What `CentsToString` writes, `Number` reads back. */
  lemma NumberOfCentsString(c: int)
    ensures Number(CentsToString(c)) == Some(c)
  {
    var a: nat := if c < 0 then -c else c;
    TrimAmount(a);
    SignedOfUnsigned(a);
  }

  /** An integer printed by `String(i)` reads back as `i`. */
  lemma NumberOfIntString(i: int)
    ensures NumberAsInt(IntToString(i)) == Some(i)
  {
    CentsToStringWhole(i);
    NumberOfCentsString(i * 100);
    WholeCents(i);
  }

  /** A whole amount prints as its integer. */
  lemma CentsToStringWhole(i: int)
    ensures CentsToString(i * 100) == IntToString(i)
  {
    var a: nat := if i < 0 then -i else i;
    UnsignedStringWhole(a);
    if i < 0 {
      assert -(i * 100) == a * 100;
    } else {
      assert i * 100 == a * 100;
    }
  }

  lemma UnsignedStringWhole(a: nat)
    ensures UnsignedString(a * 100) == NatToString(a)
  {
    WholeCents(a);
  }

  /** A non-empty string of decimal digits reads back as its value. */
  lemma NumberOfDigits(s: string)
    requires s != "" && AllDigits(s)
    ensures NumberAsInt(s) == Some(DecimalValue(s))
  {
    NoSpaceInAmount(s);
    SignedOfDigits(s);
    WholeCents(DecimalValue(s));
  }

  /** A whole amount in hundredths divides back exactly. */
  lemma WholeCents(v: int)
    ensures (v * 100) % 100 == 0 && (v * 100) / 100 == v
  {
  }

  lemma SignedOfDigits(s: string)
    requires s != "" && AllDigits(s)
    ensures SignedCents(s) == Some(DecimalValue(s) * 100)
  {
    UnsignedOfDigits(s);
    assert IsDigit(s[0]);
  }

  lemma UnsignedOfDigits(s: string)
    requires s != "" && AllDigits(s)
    ensures UnsignedCents(s) == Some(DecimalValue(s) * 100)
  {
    assert '.' !in s by {
      assert forall i :: 0 <= i < |s| ==> s[i] != '.';
    }
    SplitNone(s, '.');
  }

  /** A month or day written with two digits reads back as the number. */
  lemma NumberOfPadded(n: nat)
    requires n < 100
    ensures NumberAsInt(PadStart2(NatToString(n))) == Some(n)
  {
    Pad2Value(n);
    NumberOfDigits(PadStart2(NatToString(n)));
  }
}
