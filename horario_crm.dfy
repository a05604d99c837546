/**
 * The admin's monthly schedule screen: a day's target minutes (explicit
 * shift times first, then the shift label, then the weekly contract spread
 * over five days), the signed daily balance and its label, the date helpers
 * of the grid, month navigation, and the body saved for a day, which
 * carries either a day state or a shift, never both.
 */
module HorarioCrm {
  import opened Base
  import opened Strings
  import opened Clock
  import opened Dates
  import VentaForm

  datatype Estado = Vacaciones | DiaLibre | Baja | Festivo
  datatype Turno = Manana | Tarde | MananaTarde

  /** A day of the month as the server sends it; the shift times are "HH:MM" text. */
  datatype Dia = Dia(
    fecha: string, estado: Option<Estado>, minutosTrabajados: int, turno: Option<Turno>,
    horaEntradaManana: Option<string>, horaSalidaManana: Option<string>,
    horaEntradaTarde: Option<string>, horaSalidaTarde: Option<string>)

  // ---------------------------------------------------------------- minutes

  /** `calcularMinutos`: minutes from `entrada` to `salida`; `None` stands for `NaN`. */
  function CalcularMinutos(entrada: string, salida: string): Option<int> {
    SubNum(ClockMinutes(salida), ClockMinutes(entrada))
  }

  /** `a - b` where either may be `NaN`. */
  function SubNum(a: Option<int>, b: Option<int>): (r: Option<int>)
    ensures r.Some? <==> a.Some? && b.Some?
    ensures r.Some? ==> r.value == a.value - b.value
  {
    if a.Some? && b.Some? then Some(a.value - b.value) else None
  }

  /** Two readable times span the difference of their readings. */
  lemma SpanOf(entrada: string, salida: string, a: int, b: int)
    requires ClockMinutes(entrada) == Some(a) && ClockMinutes(salida) == Some(b)
    ensures CalcularMinutos(entrada, salida) == Some(b - a)
  {
    SubNumOf(ClockMinutes(salida), ClockMinutes(entrada), b, a);
  }

  lemma SubNumOf(x: Option<int>, y: Option<int>, a: int, b: int)
    requires x == Some(a) && y == Some(b)
    ensures SubNum(x, y) == Some(a - b)
  {
  }

  /** That span lies within a day either way and is non-negative exactly when the first time is not later. */
  lemma SpanBounds(h1: nat, m1: nat, h2: nat, m2: nat)
    requires h1 < 24 && m1 < 60 && h2 < 24 && m2 < 60
    ensures -1439 <= (h2 * 60 + m2) - (h1 * 60 + m1) <= 1439
    ensures StrLe(TimeString(h1, m1), TimeString(h2, m2)) <==> (h2 * 60 + m2) - (h1 * 60 + m1) >= 0
  {
    TimeOrder(h1, m1, h2, m2);
  }

  /** `a + b` where either may be `NaN`. */
  function AddNum(a: Option<int>, b: Option<int>): (r: Option<int>)
    ensures r.Some? <==> a.Some? && b.Some?
    ensures r.Some? ==> r.value == a.value + b.value
  {
    if a.Some? && b.Some? then Some(a.value + b.value) else None
  }

  /** `Math.round(n / d)`: the nearest integer, halves rounded up. */
  function JsRoundDiv(n: int, d: int): (r: int)
    requires d > 0
    ensures 2 * d * r - d <= 2 * n < 2 * d * r + d
  {
    (2 * n + d) / (2 * d)
  }

  predicate Both(a: Option<string>, b: Option<string>) { Truthy(a) && Truthy(b) }

  /**
   * `calcularObjetivoDia`. `horasSemana` is the weekly contract in hundredths
   * of an hour; the weekly fallback is `Math.round(horas * 60 / 5)`.
   */
  function CalcularObjetivoDia(dia: Dia, horasSemana: int): (r: Option<int>)
    ensures Both(dia.horaEntradaManana, dia.horaSalidaManana) && Both(dia.horaEntradaTarde, dia.horaSalidaTarde) ==>
      r == AddNum(CalcularMinutos(dia.horaEntradaManana.value, dia.horaSalidaManana.value),
                  CalcularMinutos(dia.horaEntradaTarde.value, dia.horaSalidaTarde.value))
    ensures Both(dia.horaEntradaManana, dia.horaSalidaManana) && !Both(dia.horaEntradaTarde, dia.horaSalidaTarde) ==>
      r == CalcularMinutos(dia.horaEntradaManana.value, dia.horaSalidaManana.value)
    ensures !Both(dia.horaEntradaManana, dia.horaSalidaManana) && Both(dia.horaEntradaTarde, dia.horaSalidaTarde) ==>
      r == CalcularMinutos(dia.horaEntradaTarde.value, dia.horaSalidaTarde.value)
    ensures !Both(dia.horaEntradaManana, dia.horaSalidaManana) && !Both(dia.horaEntradaTarde, dia.horaSalidaTarde) ==>
      r == Some(TurnoObjetivo(dia.turno, horasSemana))
  {
    if Both(dia.horaEntradaManana, dia.horaSalidaManana) && Both(dia.horaEntradaTarde, dia.horaSalidaTarde) then
      AddNum(CalcularMinutos(dia.horaEntradaManana.value, dia.horaSalidaManana.value),
             CalcularMinutos(dia.horaEntradaTarde.value, dia.horaSalidaTarde.value))
    else if Both(dia.horaEntradaManana, dia.horaSalidaManana) then
      CalcularMinutos(dia.horaEntradaManana.value, dia.horaSalidaManana.value)
    else if Both(dia.horaEntradaTarde, dia.horaSalidaTarde) then
      CalcularMinutos(dia.horaEntradaTarde.value, dia.horaSalidaTarde.value)
    else
      Some(TurnoObjetivo(dia.turno, horasSemana))
  }

  /** The target without explicit times: four hours per half-day shift, else a fifth of the weekly contract. */
  function TurnoObjetivo(turno: Option<Turno>, horasSemana: int): (m: int)
    ensures turno == Some(Manana) || turno == Some(Tarde) ==> m == 240
    ensures turno == Some(MananaTarde) ==> m == 480
    ensures turno.None? ==> 2 * 500 * m - 500 <= 2 * horasSemana * 60 < 2 * 500 * m + 500
  {
    match turno
    case Some(Manana) => 240
    case Some(Tarde) => 240
    case Some(MananaTarde) => 480
    case None => JsRoundDiv(horasSemana * 60, 500)
  }

  /** A 40-hour week spreads to eight hours a day, a 37.5-hour week to seven and a half. */
  lemma ObjetivoSemanal()
    ensures TurnoObjetivo(None, 4000) == 480
    ensures TurnoObjetivo(None, 3750) == 450
  {
  }

  /** `calcularBalanceDia`: `None` for null (no shift, or nothing worked); inside, `None` for `NaN`. */
  function CalcularBalanceDia(dia: Dia, horasSemana: int): (r: Option<Option<int>>)
    ensures r.None? <==> dia.turno.None? || dia.minutosTrabajados == 0
    ensures r.Some? ==> (r.value.Some? <==> CalcularObjetivoDia(dia, horasSemana).Some?)
    ensures r.Some? && r.value.Some? ==>
      r.value.value + CalcularObjetivoDia(dia, horasSemana).value == dia.minutosTrabajados
  {
    if dia.turno.None? || dia.minutosTrabajados == 0 then None
    else
      match CalcularObjetivoDia(dia, horasSemana)
      case None => Some(None)
      case Some(objetivo) => Some(Some(dia.minutosTrabajados - objetivo))
  }

  // ---------------------------------------------------------------- balance label

  function Abs(n: int): nat { if n < 0 then -n else n }

  /** The unsigned part of a balance label: "Hh Mmin" when there is at least an hour, else "Mmin". */
  function Magnitude(n: nat): (s: string)
    ensures 'h' in s <==> n >= 60
    ensures s != [] && IsDigit(s[0])
  {
    var h, m := n / 60, n % 60;
    NatToStringHasNo(h, 'h');
    NatToStringHasNo(m, 'h');
    if h > 0 then
      var s := NatToString(h) + "h " + NatToString(m) + "min";
      assert s[|NatToString(h)|] == 'h';
      s
    else NatToString(m) + "min"
  }

  /** `formatearBalance`: "+" for a positive balance, "-" otherwise, then the magnitude. */
  function FormatearBalance(min: int): (s: string)
    ensures s != [] && (s[0] == '+' <==> min > 0) && (s[0] == '-' <==> min <= 0)
    ensures 'h' in s <==> Abs(min) >= 60
  {
    (if min > 0 then "+" else "-") + Magnitude(Abs(min))
  }

  /** Reads the unsigned part back. */
  function ReadMagnitude(s: string): Option<nat> {
    match ReadNat(s)
    case None => None
    case Some((a, rest)) => ReadMagnitudeTail(a, rest)
  }

  /** What follows the first number: "min", or "h " and the minutes. */
  function ReadMagnitudeTail(a: nat, rest: string): Option<nat> {
    match ExpectLit(rest, "h ")
    case None => if rest == "min" then Some(a) else None
    case Some(r2) =>
      match ReadNat(r2)
      case None => None
      case Some((b, r3)) => if r3 == "min" then Some(a * 60 + b) else None
  }

  /** Reads a balance label back: a sign, then the magnitude. */
  function ReadBalance(s: string): Option<int> {
    if s == [] || (s[0] != '+' && s[0] != '-') then None
    else
      match ReadMagnitude(s[1..])
      case None => None
      case Some(n) => var v: int := n; Some(if s[0] == '+' then v else -v)
  }

  lemma ReadMagnitudeOf(n: nat)
    ensures ReadMagnitude(Magnitude(n)) == Some(n)
  {
    MagnitudeShape(n);
    if n >= 60 {
      HoursAndMinutes(n);
      ReadMagnitudeHours(n / 60, n % 60);
    } else {
      ReadMagnitudeMinutes(n);
    }
  }

  lemma MagnitudeShape(n: nat)
    ensures n >= 60 ==> Magnitude(n) == NatToString(n / 60) + "h " + NatToString(n % 60) + "min"
    ensures n < 60 ==> Magnitude(n) == NatToString(n) + "min"
  {
  }

  /** An amount of minutes is its whole hours and the minutes left over. */
  lemma HoursAndMinutes(n: nat)
    ensures (n / 60) * 60 + n % 60 == n && n % 60 < 60
    ensures n >= 60 ==> n / 60 > 0
  {
  }

  lemma ReadMagnitudeHours(h: nat, m: nat)
    requires h > 0 && m < 60
    ensures ReadMagnitude(NatToString(h) + "h " + NatToString(m) + "min") == Some(h * 60 + m)
  {
    Regroup(NatToString(h), "h ", NatToString(m), "min");
    ReadNatString(h, "h " + NatToString(m) + "min");
    ReadMagnitudeTailHours(h, m);
  }

  lemma ReadMagnitudeTailHours(h: nat, m: nat)
    ensures ReadMagnitudeTail(h, "h " + NatToString(m) + "min") == Some(h * 60 + m)
  {
    Regroup3("h ", NatToString(m), "min");
    ExpectLitPrefix("h ", NatToString(m) + "min");
    ReadNatString(m, "min");
  }

  lemma ReadMagnitudeMinutes(m: nat)
    ensures ReadMagnitude(NatToString(m) + "min") == Some(m)
  {
    ReadNatString(m, "min");
    assert !StartsWith("min", "h ") by {
      assert "min"[..2] != "h ";
    }
  }

  /** Every balance label reads back as its balance; zero prints as "-0min", which still reads as 0. */
  lemma FormatearBalanceRoundTrip(min: int)
    ensures ReadBalance(FormatearBalance(min)) == Some(min)
  {
    var sign := if min > 0 then "+" else "-";
    var s := FormatearBalance(min);
    assert s[1..] == Magnitude(Abs(min));
    ReadMagnitudeOf(Abs(min));
  }

  /** What the day cell shows for a balance: "OK" for zero, else the label; `None` is `NaN`. */
  function BalanceLabel(balance: Option<int>): (s: string)
    ensures s == "OK" <==> balance == Some(0)
    ensures balance.Some? && balance.value != 0 ==> ReadBalance(s) == balance
  {
    match balance
    case None => "-NaNmin"
    case Some(b) =>
      if b == 0 then "OK"
      else
        FormatearBalanceRoundTrip(b);
        FormatearBalance(b)
  }

  /** The cell reads "OK" exactly when the minutes worked meet the target. */
  lemma BalanceOkIff(dia: Dia, horasSemana: int)
    requires dia.turno.Some? && dia.minutosTrabajados != 0
    ensures BalanceLabel(CalcularBalanceDia(dia, horasSemana).value) == "OK"
      <==> CalcularObjetivoDia(dia, horasSemana) == Some(dia.minutosTrabajados)
  {
  }

  // ---------------------------------------------------------------- dates of the grid

  /** `normalizarFecha`: month and day zero-padded; `None` when a part is missing (the call throws). */
  function NormalizarFecha(fecha: string): (r: Option<string>)
    ensures r.Some? <==> |Split(fecha, '-')| >= 3
  {
    var parts := Split(fecha, '-');
    if |parts| < 3 then None
    else Some(parts[0] + "-" + PadStart2(parts[1]) + "-" + PadStart2(parts[2]))
  }

  lemma PadStart2NoDash(s: string)
    requires '-' !in s
    ensures '-' !in PadStart2(s)
  {
    var r := PadStart2(s);
    if |s| < 2 {
      forall i | 0 <= i < |r|
        ensures r[i] != '-'
      {
        if i >= 2 - |s| {
          assert r[i] == r[2 - |s|..][i - (2 - |s|)];
        }
      }
    }
  }

  /** Normalising twice is normalising once. */
  lemma NormalizarFechaIdempotent(fecha: string)
    requires NormalizarFecha(fecha).Some?
    ensures NormalizarFecha(NormalizarFecha(fecha).value) == NormalizarFecha(fecha)
  {
    var parts := Split(fecha, '-');
    var a, b, c := parts[0], PadStart2(parts[1]), PadStart2(parts[2]);
    PadStart2NoDash(parts[1]);
    PadStart2NoDash(parts[2]);
    assert NormalizarFecha(fecha).value == a + ['-'] + b + ['-'] + c;
    Split3(a, b, c, '-');
  }

  /** A well-formed date is already normal. */
  lemma NormalizarFechaOfDate(c: Civil)
    requires ValidCivil(c) && c.year >= 0
    ensures NormalizarFecha(FormatDate(c)) == Some(FormatDate(c))
  {
    var ys, ms, ds := IntToString(c.year), PadStart2(NatToString(c.month)), PadStart2(NatToString(c.day));
    NatToStringHasNo(c.year, '-');
    PaddedHasNoDash(c.month);
    PaddedHasNoDash(c.day);
    Pad2Value(c.month);
    Pad2Value(c.day);
    assert FormatDate(c) == ys + ['-'] + ms + ['-'] + ds;
    Split3(ys, ms, ds, '-');
  }

  /** A missing part prints as "undefined" in a template string. */
  function PartOrUndefined(parts: seq<string>, i: nat): string {
    if i < |parts| then parts[i] else "undefined"
  }

  /** `formatFechaES`: "YYYY-MM-DD" to "DD/MM/YYYY". */
  function FormatFechaES(fecha: string): string {
    var parts := Split(fecha, '-');
    PartOrUndefined(parts, 2) + "/" + PartOrUndefined(parts, 1) + "/" + PartOrUndefined(parts, 0)
  }

  /** The Spanish form of a date is the day, month and year of its ISO form, and the date input reads it back unchanged. */
  lemma FormatFechaESRoundTrip(c: Civil)
    requires ValidCivil(c) && c.year >= 0
    ensures FormatFechaES(FormatDate(c))
      == PadStart2(NatToString(c.day)) + "/" + PadStart2(NatToString(c.month)) + "/" + IntToString(c.year)
    ensures VentaForm.ToInputDate(Some(FormatFechaES(FormatDate(c)))) == FormatDate(c)
  {
    var ys, ms, ds := IntToString(c.year), PadStart2(NatToString(c.month)), PadStart2(NatToString(c.day));
    NatToStringHasNo(c.year, '-');
    PaddedHasNoDash(c.month);
    PaddedHasNoDash(c.day);
    assert FormatDate(c) == ys + ['-'] + ms + ['-'] + ds;
    Split3(ys, ms, ds, '-');
    Pad2Value(c.month);
    Pad2Value(c.day);
    NatToStringHasNo(c.year, '/');
    assert '/' !in ms && '/' !in ds by {
      assert forall i :: 0 <= i < |ms| ==> IsDigit(ms[i]);
      assert forall i :: 0 <= i < |ds| ==> IsDigit(ds[i]);
    }
    VentaForm.ToInputDateSlash(ds, ms, ys);
  }

  /** `getOffsetMes`: the Monday-based column of the month's first day; `None` for an unreadable key. */
  function GetOffsetMes(mes: string): (r: Option<int>)
    ensures r.Some? <==> ParseMonthKey(mes).Some?
    ensures r.Some? ==> 0 <= r.value <= 6
  {
    match ParseMonthKey(mes)
    case None => None
    case Some((y, m)) => Some(FirstColumn(y, m))
  }

  /** The column of `new Date(y, m - 1, 1)`: Sunday (0) goes last, Monday first. */
  function FirstColumn(y: int, m: int): (c: int)
    ensures 0 <= c <= 6
    ensures c == (Weekday(Civil(MonthStart(y, m - 1).year, MonthStart(y, m - 1).month, 1)) + 6) % 7
  {
    var first := MonthStart(y, m - 1);
    var wd := Weekday(Civil(first.year, first.month, 1));
    if wd == 0 then 6 else wd - 1
  }

  /** The day number of day `d` of a month is `d - 1` days after the first. */
  lemma {:induction false} DayNumberInMonth(y: int, m: int, d: int)
    requires 1 <= m <= 12 && 1 <= d
    ensures DayNumber(Civil(y, m, d)) == DayNumber(Civil(y, m, 1)) + d - 1
    decreases d
  {
    if d > 1 {
      DayNumberInMonth(y, m, d - 1);
      DayNumberNextDay(Civil(y, m, d - 1));
    }
  }

  /** A well-formed month key gets the column of its own first day. */
  lemma GetOffsetMesOfKey(ym: YearMonth)
    requires ValidYearMonth(ym) && ym.year >= 0
    ensures GetOffsetMes(FormatMonthKey(ym)) == Some(FirstColumn(ym.year, ym.month))
  {
    ParseFormatMonthKey(ym);
  }

  /** Placing day 1 at that column puts every day of the month under its own weekday, Monday first. */
  lemma FirstColumnPlacesDays(ym: YearMonth, d: int)
    requires ValidYearMonth(ym) && ym.year >= 100
    requires 1 <= d <= DaysInMonth(ym.year, ym.month)
    ensures (FirstColumn(ym.year, ym.month) + d - 1) % 7 == IsoWeekday(DayNumber(Civil(ym.year, ym.month, d))) - 1
  {
    var first := MonthStart(ym.year, ym.month - 1);
    assert first == ym;
    var n1 := DayNumber(Civil(ym.year, ym.month, 1));
    assert Weekday(Civil(first.year, first.month, 1)) == WeekdayOfDayNumber(n1);
    var c := FirstColumn(ym.year, ym.month);
    assert c == (WeekdayOfDayNumber(n1) + 6) % 7;
    DayNumberInMonth(ym.year, ym.month, d);
    var k := d - 1;
    ColumnShift(n1, k, c);
    assert DayNumber(Civil(ym.year, ym.month, d)) == n1 + k;
  }

  lemma ColumnShift(n: int, k: nat, c: int)
    requires c == (WeekdayOfDayNumber(n) + 6) % 7
    ensures (c + k) % 7 == IsoWeekday(n + k) - 1
  {
    var w := WeekdayOfDayNumber(n + k);
    assert IsoWeekday(n + k) - 1 == (w + 6) % 7;
    ModSevenSum(n + 4, 6);
    ModSevenSum(n + 10, k);
    ModSevenSum(n + k + 4, 6);
  }

  /** Adding after reducing modulo 7 is adding before. */
  lemma ModSevenSum(a: int, b: int)
    ensures (a % 7 + b) % 7 == (a + b) % 7
  {
    var q := a / 7;
    assert a + b == 7 * q + (a % 7 + b);
  }

  // ---------------------------------------------------------------- saving a day

  /** A shift's start and end as typed. */
  datatype Jornada = Jornada(entrada: string, salida: string)

  /** The body of `POST /crm/horario/dia`. */
  datatype DiaPayload = DiaPayload(
    fecha: string, empleadoId: Option<string>, estado: Option<Estado>, turno: Option<Turno>,
    horasManana: Option<Jornada>, horasTarde: Option<Jornada>)

  const ALL := "ALL"

  /** A saved day names a state or a shift, never both, and carries times only with a shift. */
  predicate Exclusive(p: DiaPayload) {
    (p.estado.Some? ==> p.turno.None? && p.horasManana.None? && p.horasTarde.None?)
  }

  /** The employee parameter: "ALL" means the organisation calendar (null). */
  function EmpleadoParam(empleadoId: string): (r: Option<string>)
    ensures r.None? <==> empleadoId == ALL
    ensures r.Some? ==> r.value == empleadoId
  {
    if empleadoId == ALL then None else Some(empleadoId)
  }

  /** `marcarDia` with a state button: the state alone is saved. */
  function MarcaPayload(fecha: string, empleadoId: string, estado: Estado): (p: DiaPayload)
    ensures Exclusive(p) && p.estado == Some(estado)
    ensures p.fecha == fecha && p.empleadoId == EmpleadoParam(empleadoId)
  {
    DiaPayload(fecha, EmpleadoParam(empleadoId), Some(estado), None, None, None)
  }

  /** `guardarHorario`: a state wins over the shift; each half's times go only with a shift that covers it. */
  function HorarioPayload(dia: Dia, empleadoId: string, manana: Jornada, tarde: Jornada): (p: DiaPayload)
    ensures Exclusive(p)
    ensures p.fecha == dia.fecha && p.empleadoId == EmpleadoParam(empleadoId) && p.estado == dia.estado
    ensures p.turno == (if dia.estado.Some? then None else dia.turno)
    ensures p.horasManana.Some? <==> dia.estado.None? && (dia.turno == Some(Manana) || dia.turno == Some(MananaTarde))
    ensures p.horasTarde.Some? <==> dia.estado.None? && (dia.turno == Some(Tarde) || dia.turno == Some(MananaTarde))
    ensures p.horasManana.Some? ==> p.horasManana.value == manana
    ensures p.horasTarde.Some? ==> p.horasTarde.value == tarde
  {
    var sinEstado := dia.estado.None?;
    DiaPayload(
      dia.fecha, EmpleadoParam(empleadoId), dia.estado,
      if sinEstado then dia.turno else None,
      if sinEstado && (dia.turno == Some(Manana) || dia.turno == Some(MananaTarde)) then Some(manana) else None,
      if sinEstado && (dia.turno == Some(Tarde) || dia.turno == Some(MananaTarde)) then Some(tarde) else None)
  }

  /** What `marcarDia` does with the open day: save a state at once, or select a shift. */
  datatype Marca = Guarda(p: DiaPayload) | Selecciona(dia: Dia)

  /** `marcarDia(estado, turno)` on the open day `dia`. */
  function Marcar(dia: Dia, empleadoId: string, estado: Option<Estado>, turno: Option<Turno>): (m: Marca)
    ensures m.Guarda? <==> estado.Some?
    ensures m.Guarda? ==> m.p == MarcaPayload(dia.fecha, empleadoId, estado.value)
    ensures m.Selecciona? ==> m.dia.estado.None? && m.dia.turno == turno
    ensures m.Selecciona? ==> m.dia == dia.(estado := None, turno := turno)
  {
    if estado.Some? then Guarda(MarcaPayload(dia.fecha, empleadoId, estado.value))
    else Selecciona(dia.(estado := None, turno := turno))
  }

  /** The three shift buttons as written: `marcarDia(diaActivo.estado ?? null, turno)`. */
  function BotonTurno(dia: Dia, empleadoId: string, t: Turno): Marca {
    Marcar(dia, empleadoId, dia.estado, Some(t))
  }

  /** As written, a shift button on a day that has a state saves that state again and never selects the shift. */
  lemma BotonTurnoOnStateDay(dia: Dia, empleadoId: string, t: Turno)
    requires dia.estado.Some?
    ensures BotonTurno(dia, empleadoId, t) == Guarda(MarcaPayload(dia.fecha, empleadoId, dia.estado.value))
    ensures BotonTurno(dia, empleadoId, t).p.turno.None?
  {
  }

  /** The shift button as intended ("solo selección"): on any day it selects the shift and clears the state. */
  function BotonTurnoIntended(dia: Dia, empleadoId: string, t: Turno): (m: Marca)
    ensures m.Selecciona? && m.dia.estado.None? && m.dia.turno == Some(t)
    ensures m.dia.fecha == dia.fecha
  {
    Marcar(dia, empleadoId, None, Some(t))
  }

  /** On a day without a state the written buttons already behave as intended. */
  lemma BotonTurnoSinEstado(dia: Dia, empleadoId: string, t: Turno)
    requires dia.estado.None?
    ensures BotonTurno(dia, empleadoId, t) == BotonTurnoIntended(dia, empleadoId, t)
  {
  }

  /** After the intended shift button, saving sends that shift, no state, and the times the shift covers. */
  lemma ShiftThenSave(dia: Dia, t: Turno, empleadoId: string, manana: Jornada, tarde: Jornada)
    ensures HorarioPayload(BotonTurnoIntended(dia, empleadoId, t).dia, empleadoId, manana, tarde).estado.None?
    ensures HorarioPayload(BotonTurnoIntended(dia, empleadoId, t).dia, empleadoId, manana, tarde).turno == Some(t)
    ensures HorarioPayload(BotonTurnoIntended(dia, empleadoId, t).dia, empleadoId, manana, tarde).fecha == dia.fecha
    ensures HorarioPayload(BotonTurnoIntended(dia, empleadoId, t).dia, empleadoId, manana, tarde).horasManana.Some?
      <==> t != Tarde
  {
  }

  class HorarioCrmPage {
    const empleadoId: string
    var mes: string
    var diaActivo: Option<Dia>
    var horasManana: Jornada
    var horasTarde: Jornada
    /** The bodies posted so far, whether or not the server accepted them. */
    var posted: seq<DiaPayload>
    /** How many times `cargarHorario` ran after a save. */
    var reloads: nat

    predicate Valid()
      reads this
    {
      forall i :: 0 <= i < |posted| ==> Exclusive(posted[i])
    }

    constructor (empleadoId: string, mes: string)
      ensures Valid()
      ensures this.empleadoId == empleadoId && this.mes == mes && diaActivo.None? && posted == [] && reloads == 0
      ensures horasManana == Jornada("", "") && horasTarde == Jornada("", "")
    {
      this.empleadoId := empleadoId;
      this.mes := mes;
      diaActivo := None;
      horasManana := Jornada("", "");
      horasTarde := Jornada("", "");
      posted := [];
      reloads := 0;
    }

    /** Opening a day cell. */
    method Abrir(dia: Dia)
      modifies this
      ensures diaActivo == Some(dia)
      ensures mes == old(mes) && posted == old(posted) && reloads == old(reloads)
      ensures horasManana == old(horasManana) && horasTarde == old(horasTarde)
    {
      diaActivo := Some(dia);
    }

    /**
     * `marcarDia`: a state is posted; once the server accepts it the cell
     * closes and the month reloads, and a rejected post leaves the cell open.
     * Without a state the shift is only selected; `outcome` is then unused.
     */
    method MarcarDia(estado: Option<Estado>, turno: Option<Turno>, outcome: CallOutcome)
      requires Valid()
      modifies this
      ensures Valid()
      ensures old(diaActivo).None? ==> diaActivo == old(diaActivo) && posted == old(posted) && reloads == old(reloads)
      ensures old(diaActivo).Some? && estado.Some? ==>
        posted == old(posted) + [Marcar(old(diaActivo).value, empleadoId, estado, turno).p]
      ensures old(diaActivo).Some? && estado.Some? && outcome.Ok? ==> diaActivo.None? && reloads == old(reloads) + 1
      ensures old(diaActivo).Some? && estado.Some? && !outcome.Ok? ==>
        diaActivo == old(diaActivo) && reloads == old(reloads)
      ensures old(diaActivo).Some? && estado.None? ==>
        posted == old(posted) && reloads == old(reloads)
        && diaActivo == Some(Marcar(old(diaActivo).value, empleadoId, estado, turno).dia)
      ensures mes == old(mes) && horasManana == old(horasManana) && horasTarde == old(horasTarde)
    {
      if diaActivo.None? {
        return;
      }
      if estado.Some? {
        posted := posted + [MarcaPayload(diaActivo.value.fecha, empleadoId, estado.value)];
        if outcome.Ok? {
          diaActivo := None;
          reloads := reloads + 1;
        }
        return;
      }
      diaActivo := Some(diaActivo.value.(estado := None, turno := turno));
    }

    /** One of the three shift buttons, shown only while a day is open. */
    method ShiftButton(t: Turno, outcome: CallOutcome)
      requires Valid() && diaActivo.Some?
      modifies this
      ensures Valid()
      ensures BotonTurno(old(diaActivo).value, empleadoId, t).Guarda? ==>
        posted == old(posted) + [BotonTurno(old(diaActivo).value, empleadoId, t).p]
        && (if outcome.Ok? then diaActivo.None? && reloads == old(reloads) + 1
            else diaActivo == old(diaActivo) && reloads == old(reloads))
      ensures BotonTurno(old(diaActivo).value, empleadoId, t).Selecciona? ==>
        posted == old(posted) && reloads == old(reloads)
        && diaActivo == Some(BotonTurno(old(diaActivo).value, empleadoId, t).dia)
      ensures mes == old(mes) && horasManana == old(horasManana) && horasTarde == old(horasTarde)
    {
      MarcarDia(diaActivo.value.estado, Some(t), outcome);
    }

    /** Typing a shift's times. */
    method SetHoras(manana: Jornada, tarde: Jornada)
      modifies this
      ensures horasManana == manana && horasTarde == tarde
      ensures mes == old(mes) && diaActivo == old(diaActivo) && posted == old(posted) && reloads == old(reloads)
    {
      horasManana := manana;
      horasTarde := tarde;
    }

    /** `guardarHorario`: posts the open day; once the server accepts it the day closes and the month reloads. */
    method GuardarHorario(outcome: CallOutcome)
      requires Valid()
      modifies this
      ensures Valid()
      ensures old(diaActivo).None? ==> posted == old(posted) && diaActivo.None? && reloads == old(reloads)
      ensures old(diaActivo).Some? ==>
        posted == old(posted) + [HorarioPayload(old(diaActivo).value, empleadoId, horasManana, horasTarde)]
      ensures old(diaActivo).Some? && outcome.Ok? ==> diaActivo.None? && reloads == old(reloads) + 1
      ensures old(diaActivo).Some? && !outcome.Ok? ==> diaActivo == old(diaActivo) && reloads == old(reloads)
      ensures mes == old(mes) && horasManana == old(horasManana) && horasTarde == old(horasTarde)
    {
      if diaActivo.None? {
        return;
      }
      posted := posted + [HorarioPayload(diaActivo.value, empleadoId, horasManana, horasTarde)];
      if outcome.Ok? {
        diaActivo := None;
        reloads := reloads + 1;
      }
    }

    /** `cambiarMes`: the key `delta` months away. */
    method CambiarMes(delta: int)
      modifies this
      ensures mes == ShiftMonthKey(old(mes), delta)
      ensures diaActivo == old(diaActivo) && posted == old(posted) && reloads == old(reloads)
      ensures horasManana == old(horasManana) && horasTarde == old(horasTarde)
    {
      mes := ShiftMonthKey(mes, delta);
    }
  }
}
