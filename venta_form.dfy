/**
 * The sale form: the date converter that feeds `<input type="date">`, the
 * per-field comparison with the original sale that highlights edited fields,
 * the fiscal-ID check on submit and the submitted data.
 */
module VentaForm {
  import opened Base
  import opened Strings
  import opened JsNumber
  import opened Dates

  // ---------------------------------------------------------------- toInputDate

  /** `/^\d{4}-\d{2}-\d{2}$/`. */
  predicate IsYmd(s: string) {
    |s| == 10
    && IsDigit(s[0]) && IsDigit(s[1]) && IsDigit(s[2]) && IsDigit(s[3]) && s[4] == '-'
    && IsDigit(s[5]) && IsDigit(s[6]) && s[7] == '-' && IsDigit(s[8]) && IsDigit(s[9])
  }

  /** `value.substring(0, 10)`. */
  function Prefix10(s: string): (r: string)
    ensures |r| <= 10 && r <= s
  {
    if |s| <= 10 then s else s[..10]
  }

  /**
   * `toInputDate`: an empty value gives ""; "yyyy-mm-dd" is kept; "dd/mm/yyyy"
   * is rewritten with day and month padded to two digits; a string with a
   * "T" is cut to ten characters; anything else gives "".
   */
  function ToInputDate(value: Option<string>): (r: string)
    ensures !Truthy(value) ==> r == ""
    ensures Truthy(value) && IsYmd(value.value) ==> r == value.value
    ensures Truthy(value) && !IsYmd(value.value) && '/' !in value.value && 'T' in value.value ==>
      r == Prefix10(value.value)
    ensures Truthy(value) && !IsYmd(value.value) && '/' !in value.value && 'T' !in value.value ==> r == ""
  {
    if !Truthy(value) then ""
    else if IsYmd(value.value) then value.value
    else NotYmd(value.value)
  }

  /** The branches of `toInputDate` after the "yyyy-mm-dd" test. */
  function NotYmd(s: string): (r: string)
    ensures '/' !in s && 'T' in s ==> r == Prefix10(s)
    ensures '/' !in s && 'T' !in s ==> r == ""
  {
    var parts := Split(s, '/');
    if '/' in s && |parts| >= 3 && parts[0] != "" && parts[1] != "" && parts[2] != "" then
      parts[2] + "-" + PadStart2(parts[1]) + "-" + PadStart2(parts[0])
    else if 'T' in s then Prefix10(s)
    else ""
  }

  /** A string with a slash is never "yyyy-mm-dd". */
  lemma SlashNotYmd(s: string, i: nat)
    requires i < |s| && s[i] == '/'
    ensures !IsYmd(s)
  {
  }

  /** A day/month/year string is reordered, with day and month padded. */
  lemma ToInputDateSlash(dd: string, mm: string, yyyy: string)
    requires dd != "" && mm != "" && yyyy != ""
    requires '/' !in dd && '/' !in mm && '/' !in yyyy
    ensures ToInputDate(Some(dd + "/" + mm + "/" + yyyy)) == yyyy + "-" + PadStart2(mm) + "-" + PadStart2(dd)
  {
    var s := dd + "/" + mm + "/" + yyyy;
    assert s == dd + ['/'] + mm + ['/'] + yyyy;
    assert s[|dd|] == '/';
    SlashNotYmd(s, |dd|);
    NotYmdSlash(dd, mm, yyyy);
  }

  lemma NotYmdSlash(dd: string, mm: string, yyyy: string)
    requires dd != "" && mm != "" && yyyy != ""
    requires '/' !in dd && '/' !in mm && '/' !in yyyy
    ensures NotYmd(dd + ['/'] + mm + ['/'] + yyyy) == yyyy + "-" + PadStart2(mm) + "-" + PadStart2(dd)
  {
    var s := dd + ['/'] + mm + ['/'] + yyyy;
    Split3(dd, mm, yyyy, '/');
    assert s[|dd|] == '/';
  }

  /** Four digits, two digits and two digits joined by dashes are "yyyy-mm-dd". */
  lemma YmdOfParts(y: string, m: string, d: string)
    requires |y| == 4 && |m| == 2 && |d| == 2
    requires AllDigits(y) && AllDigits(m) && AllDigits(d)
    ensures IsYmd(y + "-" + m + "-" + d)
  {
    var r := y + "-" + m + "-" + d;
    assert r[..4] == y && r[5..7] == m && r[8..] == d;
    assert r[0] == y[0] && r[1] == y[1] && r[2] == y[2] && r[3] == y[3];
    assert r[5] == m[0] && r[6] == m[1] && r[8] == d[0] && r[9] == d[1];
  }

  /** One or two digits padded to two places are two digits. */
  lemma PadDigits(s: string)
    requires 1 <= |s| <= 2 && AllDigits(s)
    ensures |PadStart2(s)| == 2 && AllDigits(PadStart2(s))
  {
    if |s| == 1 {
      assert PadStart2(s) == ['0', s[0]];
    }
  }

  /** With a four-digit year and day and month of one or two digits the result is kept by a second pass. */
  lemma ToInputDateIdempotentOnSlash(dd: string, mm: string, yyyy: string)
    requires 1 <= |dd| <= 2 && 1 <= |mm| <= 2 && |yyyy| == 4
    requires AllDigits(dd) && AllDigits(mm) && AllDigits(yyyy)
    ensures IsYmd(ToInputDate(Some(dd + "/" + mm + "/" + yyyy)))
    ensures ToInputDate(Some(ToInputDate(Some(dd + "/" + mm + "/" + yyyy))))
      == ToInputDate(Some(dd + "/" + mm + "/" + yyyy))
  {
    assert '/' !in dd && '/' !in mm && '/' !in yyyy by {
      assert !IsDigit('/');
    }
    ToInputDateSlash(dd, mm, yyyy);
    PadDigits(mm);
    PadDigits(dd);
    YmdOfParts(yyyy, PadStart2(mm), PadStart2(dd));
  }

  /** A two-digit year is not kept: "1/2/25" becomes "25-02-01", eight characters, which a second pass turns into "". */
  lemma ToInputDateShortYear(dd: string, mm: string, yy: string)
    requires 1 <= |dd| <= 2 && 1 <= |mm| <= 2 && |yy| == 2
    requires AllDigits(dd) && AllDigits(mm) && AllDigits(yy)
    ensures |ToInputDate(Some(dd + "/" + mm + "/" + yy))| == 8
    ensures ToInputDate(Some(ToInputDate(Some(dd + "/" + mm + "/" + yy)))) == ""
  {
    assert '/' !in dd && '/' !in mm && '/' !in yy by {
      assert !IsDigit('/');
    }
    ToInputDateSlash(dd, mm, yy);
    PadDigits(mm);
    PadDigits(dd);
    DashedDigits(yy, PadStart2(mm), PadStart2(dd));
  }

  /** Digits joined by dashes contain neither a slash nor a "T". */
  lemma DashedDigits(a: string, b: string, c: string)
    requires AllDigits(a) && AllDigits(b) && AllDigits(c)
    ensures '/' !in a + "-" + b + "-" + c && 'T' !in a + "-" + b + "-" + c
  {
    var r := a + "-" + b + "-" + c;
    assert forall i :: 0 <= i < |r| ==> IsDigit(r[i]) || r[i] == '-' by {
      forall i | 0 <= i < |r|
        ensures IsDigit(r[i]) || r[i] == '-'
      {
        if i < |a| {
          assert r[i] == a[i];
        } else if i == |a| {
        } else if i < |a| + 1 + |b| {
          assert r[i] == b[i - |a| - 1];
        } else if i == |a| + 1 + |b| {
        } else {
          assert r[i] == c[i - |a| - |b| - 2];
        }
      }
    }
  }

  /** A date written as "YYYY-MM-DD" with a four-digit year is kept as it is. */
  lemma ToInputDateOfFormatted(c: Civil)
    requires ValidCivil(c) && 1000 <= c.year <= 9999
    ensures ToInputDate(Some(FormatDate(c))) == FormatDate(c)
  {
    var ys := IntToString(c.year);
    var ms := PadStart2(NatToString(c.month));
    var ds := PadStart2(NatToString(c.day));
    NatToStringLength4(c.year);
    Pad2Value(c.month);
    Pad2Value(c.day);
    assert FormatDate(c) == ys + "-" + ms + "-" + ds;
    YmdOfParts(ys, ms, ds);
  }

  lemma NatToStringLength4(n: nat)
    requires 1000 <= n <= 9999
    ensures |NatToString(n)| == 4
    ensures AllDigits(NatToString(n))
  {
    NatToStringValue(n);
    NatToStringLength4Steps(n);
  }

  lemma NatToStringLength4Steps(n: nat)
    requires 1000 <= n <= 9999
    ensures |NatToString(n)| == 4
  {
    var a, b, c := n / 10, n / 100, n / 1000;
    assert 100 <= a && 10 <= b && 1 <= c < 10;
    assert a / 10 == b && b / 10 == c;
    assert NatToString(c) == [DigitChar(c)];
    assert |NatToString(b)| == 2;
    assert |NatToString(a)| == 3;
  }

  // ---------------------------------------------------------------- field comparison

  datatype Field =
    FechaEfecto | CreatedBy | Aseguradora | Ramo | NumeroPoliza | Tomador
    | DocumentoFiscal | PrimaNeta | FormaPago | Actividad | Observaciones

  const FIELDS: set<Field> := {
    FechaEfecto, CreatedBy, Aseguradora, Ramo, NumeroPoliza, Tomador,
    DocumentoFiscal, PrimaNeta, FormaPago, Actividad, Observaciones}

  /** A value of the original sale: absent/null, a string, or a number (in hundredths). */
  datatype Raw = Missing | Text(s: string) | Amount(cents: int)

  /** What `normalizeValue` returns: a string or a number, `None` standing for `NaN`. */
  datatype Norm = NStr(s: string) | NNum(n: Option<int>)

  /** `String(value)`. */
  function JsString(r: Raw): string
    requires !r.Missing?
  {
    match r
    case Text(s) => s
    case Amount(c) => CentsToString(c)
  }

  /** `normalizeValue(field, value)`. */
  function NormalizeValue(f: Field, r: Raw): (n: Norm)
    ensures r.Missing? ==> n == NStr("")
    ensures !r.Missing? && f == PrimaNeta ==> n.NNum?
    ensures !r.Missing? && f != PrimaNeta ==> n.NStr?
    ensures !r.Missing? && f == FechaEfecto ==> n == NStr(Prefix10(JsString(r)))
    ensures !r.Missing? && f != FechaEfecto && f != PrimaNeta ==> n == NStr(Trim(JsString(r)))
  {
    if r.Missing? then NStr("")
    else if f == FechaEfecto then NStr(Prefix10(JsString(r)))
    else if f == PrimaNeta then NNum(match r case Text(s) => Number(s) case Amount(c) => Some(c))
    else NStr(Trim(JsString(r)))
  }

  /** `a !== b` on normalised values: different types differ, and `NaN` differs from everything. */
  predicate StrictlyDifferent(a: Norm, b: Norm) {
    match (a, b)
    case (NStr(x), NStr(y)) => x != y
    case (NNum(x), NNum(y)) => x.None? || y.None? || x != y
    case _ => true
  }

  /** `isChanged(field)`: never without original data. */
  function IsChanged(f: Field, original: Option<map<Field, Raw>>, form: map<Field, string>): (b: bool)
    ensures original.None? ==> !b
  {
    if original.None? then false
    else
      var o := if f in original.value then original.value[f] else Missing;
      var c := if f in form then Text(form[f]) else Missing;
      StrictlyDifferent(NormalizeValue(f, o), NormalizeValue(f, c))
  }

  /** For a text field, only a difference after trimming counts as a change. */
  lemma IsChangedText(f: Field, o: string, current: string)
    requires f != FechaEfecto && f != PrimaNeta
    ensures IsChanged(f, Some(map[f := Text(o)]), map[f := current]) <==> Trim(o) != Trim(current)
  {
  }

  /** An edit that only adds surrounding white space is not a change. */
  lemma WhitespaceEditIsNoChange(f: Field, o: string, pad: string)
    requires f != FechaEfecto && f != PrimaNeta
    requires forall i :: 0 <= i < |pad| ==> IsJsSpace(pad[i])
    ensures !IsChanged(f, Some(map[f := Text(o)]), map[f := pad + o + pad])
  {
    TrimIdempotent(o);
    TrimAround(o, pad);
  }

  lemma {:induction false} TrimAround(s: string, pad: string)
    requires forall i :: 0 <= i < |pad| ==> IsJsSpace(pad[i])
    ensures Trim(pad + s + pad) == Trim(s)
  {
    TrimStartSpaces(s + pad, pad);
    assert pad + s + pad == pad + (s + pad);
    TrimEndSpaces(s, pad);
    TrimSplit(s, pad);
  }

  lemma {:induction false} TrimStartSpaces(s: string, pad: string)
    requires forall i :: 0 <= i < |pad| ==> IsJsSpace(pad[i])
    ensures TrimStart(pad + s) == TrimStart(s)
  {
    if pad != [] {
      assert (pad + s)[0] == pad[0];
      assert (pad + s)[1..] == pad[1..] + s;
      assert TrimStart(pad + s) == TrimStart((pad + s)[1..]);
      TrimStartSpaces(s, pad[1..]);
    } else {
      assert pad + s == s;
    }
  }

  lemma {:induction false} TrimEndSpaces(s: string, pad: string)
    requires forall i :: 0 <= i < |pad| ==> IsJsSpace(pad[i])
    ensures TrimEnd(s + pad) == TrimEnd(s)
  {
    if pad != [] {
      var p' := pad[..|pad| - 1];
      assert (s + pad)[|s + pad| - 1] == pad[|pad| - 1];
      assert TrimEnd(s + pad) == TrimEnd((s + pad)[..|s + pad| - 1]);
      assert (s + pad)[..|s + pad| - 1] == s + p';
      TrimEndSpaces(s, p');
    } else {
      assert s + pad == s;
    }
  }

  /** Trimming the start commutes with trimming trailing white space. */
  lemma {:induction false} TrimSplit(s: string, pad: string)
    requires forall i :: 0 <= i < |pad| ==> IsJsSpace(pad[i])
    ensures TrimEnd(TrimStart(s + pad)) == TrimEnd(TrimStart(s))
  {
    if s == [] {
      TrimStartAllSpaces(pad);
      assert s + pad == pad;
    } else if IsJsSpace(s[0]) {
      assert (s + pad)[1..] == s[1..] + pad;
      TrimSplit(s[1..], pad);
    } else {
      TrimEndSpaces(s, pad);
    }
  }

  lemma {:induction false} TrimStartAllSpaces(pad: string)
    requires forall i :: 0 <= i < |pad| ==> IsJsSpace(pad[i])
    ensures TrimStart(pad) == []
  {
    if pad != [] {
      TrimStartAllSpaces(pad[1..]);
    }
  }

  /** The premium the form shows (`primaNeta.toString()`) compares equal to the stored number. */
  lemma PrimaPrefillUnchanged(c: int)
    ensures !IsChanged(PrimaNeta, Some(map[PrimaNeta := Amount(c)]), map[PrimaNeta := CentsToString(c)])
  {
    NumberOfCentsString(c);
    assert NormalizeValue(PrimaNeta, Amount(c)) == NNum(Some(c));
    assert NormalizeValue(PrimaNeta, Text(CentsToString(c))) == NNum(Some(c));
  }

  /** A premium that does not read as a number is always "changed", even against itself. */
  lemma NaNAlwaysChanged(s: string)
    requires Number(s).None?
    ensures IsChanged(PrimaNeta, Some(map[PrimaNeta := Text(s)]), map[PrimaNeta := s])
  {
  }

  // ---------------------------------------------------------------- submit

  /** The fiscal ID blocks submission when, trimmed, it is non-empty and shorter than nine characters. */
  predicate FiscalIdInvalid(doc: string) {
    Trim(doc) != "" && |Trim(doc)| < 9
  }

  /** `FIELDS` names every field of the form. */
  lemma AllFields()
    ensures forall f: Field :: f in FIELDS
  {
    forall f: Field
      ensures f in FIELDS
    {
      match f
      case FechaEfecto =>
      case CreatedBy =>
      case Aseguradora =>
      case Ramo =>
      case NumeroPoliza =>
      case Tomador =>
      case DocumentoFiscal =>
      case PrimaNeta =>
      case FormaPago =>
      case Actividad =>
      case Observaciones =>
    }
  }

  // ---------------------------------------------------------------- prefill

  /** A field of the sale being edited; an absent one reads as `undefined`. */
  function RawOf(initial: map<Field, Raw>, f: Field): Raw {
    if f in initial then initial[f] else Missing
  }

  /** `value || ""`: a falsy value (absent, "" or 0) becomes "". */
  function OrEmpty(r: Raw): string {
    match r
    case Missing => ""
    case Text(s) => s
    case Amount(c) => if c == 0 then "" else CentsToString(c)
  }

  /**
   * What the effect on `initialData` writes into field `f`: the date through
   * `toInputDate`, the creator left empty (the sale carries a user name, not
   * an id), the premium through `toString()`, every other field `|| ""`.
   */
  function PrefillValue(initial: map<Field, Raw>, f: Field): (v: string)
    ensures f == CreatedBy ==> v == ""
    ensures RawOf(initial, f).Missing? ==> v == ""
    ensures f != FechaEfecto && f != CreatedBy && RawOf(initial, f).Text? ==> v == RawOf(initial, f).s
  {
    var r := RawOf(initial, f);
    match f
    case FechaEfecto => ToInputDate(if r.Missing? then None else Some(JsString(r)))
    case CreatedBy => ""
    case PrimaNeta => if r.Missing? then "" else JsString(r)
    case _ => OrEmpty(r)
  }

  /** The form record the prefill effect sets. */
  function PrefilledForm(initial: map<Field, Raw>): (form: map<Field, string>)
    ensures forall f: Field :: f in form && form[f] == PrefillValue(initial, f)
  {
    AllFields();
    map f | f in FIELDS :: PrefillValue(initial, f)
  }

  /**
   * A text field pre-filled from the sale and compared against that same
   * sale does not count as changed, whatever white space surrounds it.
   */
  lemma PrefillUnchanged(initial: map<Field, Raw>, f: Field)
    requires f != FechaEfecto && f != CreatedBy && f != PrimaNeta
    requires RawOf(initial, f).Text?
    ensures !IsChanged(f, Some(initial), PrefilledForm(initial))
  {
    var form := PrefilledForm(initial);
    assert form[f] == RawOf(initial, f).s;
  }

  /** What submitting the form does. */
  datatype SubmitOutcome =
    | NoHandler
    | Blocked
    | Submitted(data: map<Field, string>, createdBy: Option<string>)

  class VentaFormState {
    var form: map<Field, string>
    var createdByLabel: string

    /** Every field is present in the form record. */
    predicate Valid()
      reads this
    {
      forall f: Field :: f in form
    }

    constructor ()
      ensures Valid() && createdByLabel == ""
      ensures forall f: Field :: form[f] == ""
    {
      form := map f | f in FIELDS :: "";
      AllFields();
      createdByLabel := "";
    }

    /** The effect on `initialData`: the form is filled from the sale being edited. */
    method Prefill(initial: map<Field, Raw>, usuario: Raw)
      requires Valid()
      modifies this
      ensures Valid()
      ensures form == PrefilledForm(initial)
      ensures createdByLabel == OrEmpty(usuario)
    {
      form := PrefilledForm(initial);
      createdByLabel := OrEmpty(usuario);
    }

    /** `setForm({ ...form, [name]: value })`. */
    method HandleChange(name: Field, value: string)
      requires Valid()
      modifies this
      ensures Valid()
      ensures form == old(form)[name := value] && createdByLabel == old(createdByLabel)
    {
      form := form[name := value];
    }

    /**
     * `handleSubmit`: without a handler nothing happens; an invalid fiscal ID
     * stops the submission; otherwise the form without its label is sent,
     * with `createdBy` left out when empty.
     */
    method HandleSubmit(hasOnSubmit: bool) returns (outcome: SubmitOutcome)
      requires Valid()
      ensures !hasOnSubmit ==> outcome == NoHandler
      ensures hasOnSubmit && FiscalIdInvalid(form[DocumentoFiscal]) ==> outcome == Blocked
      ensures hasOnSubmit && !FiscalIdInvalid(form[DocumentoFiscal]) ==>
        outcome.Submitted? && outcome.data == form - {CreatedBy}
        && (outcome.createdBy.Some? <==> form[CreatedBy] != "")
        && (outcome.createdBy.Some? ==> outcome.createdBy.value == form[CreatedBy])
    {
      if !hasOnSubmit {
        return NoHandler;
      }
      var doc := Trim(form[DocumentoFiscal]);
      if doc != "" && |doc| < 9 {
        return Blocked;
      }
      var createdBy := if form[CreatedBy] != "" then Some(form[CreatedBy]) else None;
      outcome := Submitted(form - {CreatedBy}, createdBy);
    }
  }

  /** An empty fiscal ID never blocks; nine significant characters never block. */
  lemma FiscalIdCases(doc: string)
    ensures Trim(doc) == "" ==> !FiscalIdInvalid(doc)
    ensures |Trim(doc)| >= 9 ==> !FiscalIdInvalid(doc)
    ensures FiscalIdInvalid("12345678")
  {
    TrimNoSpace("12345678");
  }
}
