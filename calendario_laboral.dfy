/**
 * The employee's work calendar: the organisation calendar and the
 * employee's own days merged into one record keyed by date, the pairing of
 * clock-in and clock-out events into blocks, the month's totals, the colour
 * class of a day cell, and the month buttons that stay within the year.
 */
module CalendarioLaboral {
  import opened Base
  import opened Strings
  import opened Seqs
  import opened JsRecord
  import opened Dates
  import Clock
  import HorarioCrm

  const VACACIONES := "VACACIONES"
  const BAJA := "BAJA"
  const FESTIVO := "FESTIVO"
  const DIA_LIBRE := "DIA_LIBRE"

  datatype TipoFichaje = Entrada | Salida

  /** A clock event of the day. */
  datatype Fichaje = Fichaje(tipo: TipoFichaje, hora: string)

  /** A worked stretch: its clock-in time and, when the next event closes it, its clock-out time. */
  datatype Bloque = Bloque(entrada: string, salida: Option<string>)

  datatype Turno = Manana | Tarde | MananaTarde

  /** An entry of the merged calendar; `None` stands for `null` or a missing field. */
  datatype DiaTrabajado = DiaTrabajado(
    fecha: string, horas: string, minutos: int, fichajes: seq<Fichaje>,
    estado: Option<string>, turno: Option<Turno>,
    horaEntradaManana: Option<string>, horaSalidaManana: Option<string>,
    horaEntradaTarde: Option<string>, horaSalidaTarde: Option<string>)

  /** A day of the organisation calendar, which names its state `estado` or `tipo`. */
  datatype DiaGeneral = DiaGeneral(fecha: string, estado: Option<string>, tipo: Option<string>)

  /** A day of the employee's calendar as the server sends it. */
  datatype DiaBackend = DiaBackend(
    fecha: string, estado: Option<string>, minutosTrabajados: int, fichajes: Option<seq<Fichaje>>,
    turno: Option<Turno>,
    horaEntradaManana: Option<string>, horaSalidaManana: Option<string>,
    horaEntradaTarde: Option<string>, horaSalidaTarde: Option<string>)

  /** `a ?? b`. */
  function Coalesce<T>(a: Option<T>, b: Option<T>): (r: Option<T>)
    ensures a.Some? ==> r == a
    ensures a.None? ==> r == b
  {
    if a.Some? then a else b
  }

  // ---------------------------------------------------------------------
  // Clock events into blocks
  // ---------------------------------------------------------------------

  /** The block an ENTRADA at index `i` opens: it is closed by the next event only when that is a SALIDA. */
  function BloqueEn(fs: seq<Fichaje>, i: nat): (b: Bloque)
    requires i < |fs|
    ensures b.entrada == fs[i].hora
    ensures b.salida.Some? <==> i + 1 < |fs| && fs[i + 1].tipo == Salida
    ensures b.salida.Some? ==> b.salida.value == fs[i + 1].hora
  {
    Bloque(fs[i].hora, if i + 1 < |fs| && fs[i + 1].tipo == Salida then Some(fs[i + 1].hora) else None)
  }

  /** The blocks opened by the events before index `n`. */
  function BloquesHasta(fs: seq<Fichaje>, n: nat): seq<Bloque>
    requires n <= |fs|
  {
    if n == 0 then []
    else BloquesHasta(fs, n - 1) + (if fs[n - 1].tipo == Entrada then [BloqueEn(fs, n - 1)] else [])
  }

  /** The indices of the ENTRADA events before index `n`, in order. */
  function EntradasHasta(fs: seq<Fichaje>, n: nat): (ix: seq<nat>)
    requires n <= |fs|
    ensures forall k :: 0 <= k < |ix| ==> ix[k] < n && fs[ix[k]].tipo == Entrada
    ensures forall k, l :: 0 <= k < l < |ix| ==> ix[k] < ix[l]
    ensures forall i :: 0 <= i < n && fs[i].tipo == Entrada ==> i in ix
  {
    if n == 0 then []
    else EntradasHasta(fs, n - 1) + (if fs[n - 1].tipo == Entrada then [n - 1] else [])
  }

  /** The blocks of a day, one per ENTRADA event. */
  function Bloques(fs: seq<Fichaje>): seq<Bloque> {
    BloquesHasta(fs, |fs|)
  }

  /** The blocks follow the ENTRADA events one for one and in order; SALIDA events open none. */
  lemma {:induction false} BloquesPorEntrada(fs: seq<Fichaje>, n: nat)
    requires n <= |fs|
    ensures |BloquesHasta(fs, n)| == |EntradasHasta(fs, n)|
    ensures forall k :: 0 <= k < |BloquesHasta(fs, n)| ==>
      BloquesHasta(fs, n)[k] == BloqueEn(fs, EntradasHasta(fs, n)[k])
  {
    if n > 0 {
      BloquesPorEntrada(fs, n - 1);
    }
  }

  /** As many blocks as ENTRADA events. */
  lemma {:induction false} BloquesCount(fs: seq<Fichaje>, n: nat)
    requires n <= |fs|
    ensures |BloquesHasta(fs, n)| == Count(fs[..n], (f: Fichaje) => f.tipo == Entrada)
  {
    if n > 0 {
      BloquesCount(fs, n - 1);
      assert fs[..n][..n - 1] == fs[..n - 1];
    }
  }

  /** `agruparFichajes`. */
  method AgruparFichajes(fs: seq<Fichaje>) returns (bloques: seq<Bloque>)
    ensures bloques == Bloques(fs)
  {
    bloques := [];
    var i := 0;
    while i < |fs|
      invariant 0 <= i <= |fs|
      invariant bloques == BloquesHasta(fs, i)
    {
      if fs[i].tipo == Entrada {
        var salida := if i + 1 < |fs| && fs[i + 1].tipo == Salida then Some(fs[i + 1].hora) else None;
        bloques := bloques + [Bloque(fs[i].hora, salida)];
      }
      i := i + 1;
    }
  }

  /**
   * The duration shown beside a block in the day panel: nothing when the
   * clock-out is missing or empty (a falsy `b.salida`), otherwise the clock-out reading minus the clock-in reading,
   * the same arithmetic as the schedule screen's `calcularMinutos` (an inner
   * `None` stands for `NaN`).
   */
  function DuracionBloque(b: Bloque): (d: Option<Option<int>>)
    ensures d.None? <==> !Truthy(b.salida)
  {
    if !Truthy(b.salida) then None else Some(HorarioCrm.CalcularMinutos(b.entrada, b.salida.value))
  }

  /** A closed block whose two times read as `a` and `z` minutes shows `z - a`. */
  lemma DuracionDeLecturas(entrada: string, salida: string, a: int, z: int)
    requires Clock.ClockMinutes(entrada) == Some(a) && Clock.ClockMinutes(salida) == Some(z)
    ensures DuracionBloque(Bloque(entrada, Some(salida))) == Some(Some(z - a))
  {
    HorarioCrm.SpanOf(entrada, salida, a, z);
  }

  // ---------------------------------------------------------------------
  // The hours label
  // ---------------------------------------------------------------------

  /** Reads an "Xh Ym" label back into minutes. */
  function ReadHorasLabel(s: string): Option<nat> {
    match ReadNat(s)
    case None => None
    case Some((h, rest)) => ReadMinutosPart(h, rest)
  }

  /** Reads the "h Ym" that follows the hours. */
  function ReadMinutosPart(h: nat, rest: string): Option<nat> {
    if !StartsWith(rest, "h ") then None
    else
      match ReadNat(rest[2..])
      case None => None
      case Some((m, r3)) => if r3 == "m" then Some(h * 60 + m) else None
  }

  lemma ReadMinutosPartOf(h: nat, m: nat)
    ensures ReadMinutosPart(h, "h " + NatToString(m) + "m") == Some(h * 60 + m)
  {
    var u := NatToString(m) + "m";
    var t := "h " + NatToString(m) + "m";
    assert t == "h " + u;
    assert t[..2] == "h ";
    assert t[2..] == u;
    ReadNatString(m, "m");
    assert ReadNat(t[2..]) == Some((m, "m"));
  }

  lemma ReadHorasLabelOf(h: nat, m: nat)
    ensures ReadHorasLabel(NatToString(h) + "h " + NatToString(m) + "m") == Some(h * 60 + m)
  {
    var t := "h " + NatToString(m) + "m";
    Regroup(NatToString(h), "h ", NatToString(m), "m");
    ReadHorasLabelHead(h, t);
    ReadMinutosPartOf(h, m);
  }

  /** The hours are read up to the first non-digit. */
  lemma ReadHorasLabelHead(h: nat, t: string)
    requires t != [] && t[0] == 'h'
    ensures ReadHorasLabel(NatToString(h) + t) == ReadMinutosPart(h, t)
  {
    ReadNatString(h, t);
  }

  /** The `horas` of an employee day: empty when nothing was worked, else "Xh Ym", which reads back as the minutes. */
  function HorasLabel(minutos: int): (s: string)
    ensures s == "" <==> minutos <= 0
    ensures minutos > 0 ==> ReadHorasLabel(s) == Some(minutos)
  {
    if minutos > 0 then
      ReadHorasLabelOf(minutos / 60, minutos % 60);
      NatToString(minutos / 60) + "h " + NatToString(minutos % 60) + "m"
    else ""
  }

  // ---------------------------------------------------------------------
  // The merge
  // ---------------------------------------------------------------------

  /** The entry an organisation day writes: no time worked, its `estado` or else its `tipo`. */
  function FromGeneral(d: DiaGeneral): (t: DiaTrabajado)
    ensures t.fecha == d.fecha && t.horas == "" && t.minutos == 0 && t.fichajes == []
    ensures t.estado == Coalesce(d.estado, d.tipo)
    ensures t.turno.None? && t.horaEntradaManana.None? && t.horaSalidaManana.None?
    ensures t.horaEntradaTarde.None? && t.horaSalidaTarde.None?
  {
    DiaTrabajado(d.fecha, "", 0, [], Coalesce(d.estado, d.tipo), None, None, None, None, None)
  }

  /** The entry an employee day writes, given the state already recorded for its date. */
  function FromEmpleado(d: DiaBackend, previo: Option<string>): (t: DiaTrabajado)
    ensures t.fecha == d.fecha && t.minutos == d.minutosTrabajados
    ensures t.horas == HorasLabel(d.minutosTrabajados)
    ensures t.fichajes == d.fichajes.GetOr([])
    ensures d.estado.Some? ==> t.estado == d.estado
    ensures d.estado.None? ==> t.estado == previo
    ensures t.turno == d.turno
    ensures t.horaEntradaManana == d.horaEntradaManana && t.horaSalidaManana == d.horaSalidaManana
    ensures t.horaEntradaTarde == d.horaEntradaTarde && t.horaSalidaTarde == d.horaSalidaTarde
  {
    DiaTrabajado(
      d.fecha, HorasLabel(d.minutosTrabajados), d.minutosTrabajados, d.fichajes.GetOr([]),
      Coalesce(d.estado, previo), d.turno,
      d.horaEntradaManana, d.horaSalidaManana, d.horaEntradaTarde, d.horaSalidaTarde)
  }

  /** `map[fecha]?.estado`. */
  function EstadoEn(r: Rec<string, DiaTrabajado>, fecha: string): Option<string> {
    if fecha in r.vals then r.vals[fecha].estado else None
  }

  /** The record after writing the organisation days in order. */
  function PutGenerales(r: Rec<string, DiaTrabajado>, gs: seq<DiaGeneral>): (r': Rec<string, DiaTrabajado>)
    requires Valid(r)
    ensures Valid(r')
  {
    if gs == [] then r else PonerGeneral(PutGenerales(r, gs[..|gs| - 1]), gs[|gs| - 1])
  }

  /** `map[d.fecha] = { ... }` for an organisation day. */
  function PonerGeneral(m: Rec<string, DiaTrabajado>, g: DiaGeneral): (r: Rec<string, DiaTrabajado>)
    requires Valid(m)
    ensures Valid(r)
  {
    Put(m, g.fecha, FromGeneral(g))
  }

  /** The record after writing the employee days in order, each over what is recorded for its date. */
  function PutEmpleados(r: Rec<string, DiaTrabajado>, es: seq<DiaBackend>): (r': Rec<string, DiaTrabajado>)
    requires Valid(r)
    ensures Valid(r')
  {
    if es == [] then r else PonerEmpleado(PutEmpleados(r, es[..|es| - 1]), es[|es| - 1])
  }

  /** `map[d.fecha] = { ..., estado: d.estado ?? map[d.fecha]?.estado }` for an employee day. */
  function PonerEmpleado(m: Rec<string, DiaTrabajado>, e: DiaBackend): (r: Rec<string, DiaTrabajado>)
    requires Valid(m)
    ensures Valid(r)
  {
    Put(m, e.fecha, FromEmpleado(e, EstadoEn(m, e.fecha)))
  }

  lemma PutGeneralesPrefix(r: Rec<string, DiaTrabajado>, gs: seq<DiaGeneral>, i: nat)
    requires Valid(r) && i < |gs|
    ensures PutGenerales(r, gs[..i + 1]) == PonerGeneral(PutGenerales(r, gs[..i]), gs[i])
  {
    assert gs[..i + 1][..i] == gs[..i];
  }

  lemma PutEmpleadosPrefix(r: Rec<string, DiaTrabajado>, es: seq<DiaBackend>, i: nat)
    requires Valid(r) && i < |es|
    ensures PutEmpleados(r, es[..i + 1]) == PonerEmpleado(PutEmpleados(r, es[..i]), es[i])
  {
    assert es[..i + 1][..i] == es[..i];
  }

  /** The calendar `cargar` builds: from empty, first the organisation days, then the employee days. */
  function Merge(gs: seq<DiaGeneral>, es: seq<DiaBackend>): (r: Rec<string, DiaTrabajado>)
    ensures Valid(r)
  {
    PutEmpleados(PutGenerales(Empty(), gs), es)
  }

  function FechaGeneral(g: DiaGeneral): string { g.fecha }
  function FechaEmpleado(e: DiaBackend): string { e.fecha }

  /** The dates of the organisation days and of the employee days, in order. */
  function FechasG(gs: seq<DiaGeneral>): seq<string> { Map(gs, FechaGeneral) }
  function FechasE(es: seq<DiaBackend>): seq<string> { Map(es, FechaEmpleado) }

  lemma {:induction false} PutGeneralesKeys(r: Rec<string, DiaTrabajado>, gs: seq<DiaGeneral>)
    requires Valid(r)
    ensures forall f :: f in PutGenerales(r, gs).vals <==> f in r.vals || f in FechasG(gs)
  {
    if gs != [] {
      var init := gs[..|gs| - 1];
      PutGeneralesKeys(r, init);
      assert FechasG(gs) == FechasG(init) + [gs[|gs| - 1].fecha];
    }
  }

  lemma {:induction false} PutEmpleadosKeys(r: Rec<string, DiaTrabajado>, es: seq<DiaBackend>)
    requires Valid(r)
    ensures forall f :: f in PutEmpleados(r, es).vals <==> f in r.vals || f in FechasE(es)
  {
    if es != [] {
      var init := es[..|es| - 1];
      PutEmpleadosKeys(r, init);
      PonerEmpleadoKeys(PutEmpleados(r, init), es[|es| - 1]);
      FechasESnoc(es);
    }
  }

  lemma PonerEmpleadoKeys(m: Rec<string, DiaTrabajado>, e: DiaBackend)
    requires Valid(m)
    ensures forall f :: f in PonerEmpleado(m, e).vals <==> f in m.vals || f == e.fecha
  {
  }

  lemma FechasESnoc(es: seq<DiaBackend>)
    requires es != []
    ensures forall f :: f in FechasE(es) <==> f in FechasE(es[..|es| - 1]) || f == es[|es| - 1].fecha
  {
    assert FechasE(es) == FechasE(es[..|es| - 1]) + [es[|es| - 1].fecha];
  }

  /** The merged calendar has one entry per date, and its dates are those of either source. */
  lemma MergeKeys(gs: seq<DiaGeneral>, es: seq<DiaBackend>)
    ensures Distinct(Merge(gs, es).keys)
    ensures forall f :: f in Merge(gs, es).vals <==> f in FechasG(gs) || f in FechasE(es)
  {
    PutGeneralesKeys(Empty(), gs);
    PutEmpleadosKeys(PutGenerales(Empty(), gs), es);
  }

  /** Employee days for other dates leave an entry as it was. */
  lemma {:induction false} PutEmpleadosOutside(r: Rec<string, DiaTrabajado>, es: seq<DiaBackend>, f: string)
    requires Valid(r) && f !in FechasE(es)
    ensures f in PutEmpleados(r, es).vals <==> f in r.vals
    ensures f in r.vals ==> PutEmpleados(r, es).vals[f] == r.vals[f]
  {
    if es != [] {
      var init := es[..|es| - 1];
      assert FechasE(es) == FechasE(init) + [es[|es| - 1].fecha];
      PutEmpleadosOutside(r, init, f);
    }
  }

  /** Organisation days for other dates leave an entry as it was. */
  lemma {:induction false} PutGeneralesOutside(r: Rec<string, DiaTrabajado>, gs: seq<DiaGeneral>, f: string)
    requires Valid(r) && f !in FechasG(gs)
    ensures f in PutGenerales(r, gs).vals <==> f in r.vals
    ensures f in r.vals ==> PutGenerales(r, gs).vals[f] == r.vals[f]
  {
    if gs != [] {
      var init := gs[..|gs| - 1];
      assert FechasG(gs) == FechasG(init) + [gs[|gs| - 1].fecha];
      PutGeneralesOutside(r, init, f);
    }
  }

  /** Of several organisation days for one date, the last one written is what stays. */
  lemma {:induction false} PutGeneralesLast(r: Rec<string, DiaTrabajado>, gs: seq<DiaGeneral>, i: nat)
    requires Valid(r) && i < |gs|
    requires forall j :: i < j < |gs| ==> gs[j].fecha != gs[i].fecha
    ensures gs[i].fecha in PutGenerales(r, gs).vals
    ensures PutGenerales(r, gs).vals[gs[i].fecha] == FromGeneral(gs[i])
  {
    if i < |gs| - 1 {
      PutGeneralesLast(r, gs[..|gs| - 1], i);
    }
  }

  /** An employee day that is the only one for its date is written over what the organisation days left. */
  lemma {:induction false} PutEmpleadosOnly(r: Rec<string, DiaTrabajado>, es: seq<DiaBackend>, i: nat)
    requires Valid(r) && i < |es|
    requires forall j :: 0 <= j < |es| && j != i ==> es[j].fecha != es[i].fecha
    ensures es[i].fecha in PutEmpleados(r, es).vals
    ensures PutEmpleados(r, es).vals[es[i].fecha] == FromEmpleado(es[i], EstadoEn(r, es[i].fecha))
  {
    var init := es[..|es| - 1];
    if i < |es| - 1 {
      PutEmpleadosOnly(r, init, i);
    } else {
      assert es[i].fecha !in FechasE(init);
      PutEmpleadosOutside(r, init, es[i].fecha);
    }
  }

  /** A date only the organisation calendar knows keeps its state, with no time worked and no events. */
  lemma MergeGeneralOnly(gs: seq<DiaGeneral>, es: seq<DiaBackend>, i: nat)
    requires i < |gs|
    requires forall j :: i < j < |gs| ==> gs[j].fecha != gs[i].fecha
    requires gs[i].fecha !in FechasE(es)
    ensures gs[i].fecha in Merge(gs, es).vals
    ensures Merge(gs, es).vals[gs[i].fecha] == FromGeneral(gs[i])
    ensures Merge(gs, es).vals[gs[i].fecha].estado == Coalesce(gs[i].estado, gs[i].tipo)
    ensures Merge(gs, es).vals[gs[i].fecha].minutos == 0 && Merge(gs, es).vals[gs[i].fecha].horas == ""
  {
    PutGeneralesLast(Empty(), gs, i);
    PutEmpleadosOutside(PutGenerales(Empty(), gs), es, gs[i].fecha);
  }

  /**
   * A date the employee calendar has once: its state if it has one, else the
   * organisation's (`estado`, else `tipo`); shift and times only from the employee.
   */
  lemma MergeEmpleado(gs: seq<DiaGeneral>, es: seq<DiaBackend>, i: nat, j: nat)
    requires i < |es| && j < |gs| && gs[j].fecha == es[i].fecha
    requires forall k :: 0 <= k < |es| && k != i ==> es[k].fecha != es[i].fecha
    requires forall k :: j < k < |gs| ==> gs[k].fecha != gs[j].fecha
    ensures es[i].fecha in Merge(gs, es).vals
    ensures Merge(gs, es).vals[es[i].fecha] == FromEmpleado(es[i], Coalesce(gs[j].estado, gs[j].tipo))
    ensures Merge(gs, es).vals[es[i].fecha].estado == Coalesce(es[i].estado, Coalesce(gs[j].estado, gs[j].tipo))
    ensures Merge(gs, es).vals[es[i].fecha].minutos == es[i].minutosTrabajados
    ensures Merge(gs, es).vals[es[i].fecha].turno == es[i].turno
    ensures Merge(gs, es).vals[es[i].fecha].horaEntradaManana == es[i].horaEntradaManana
    ensures Merge(gs, es).vals[es[i].fecha].horaSalidaTarde == es[i].horaSalidaTarde
  {
    PutGeneralesLast(Empty(), gs, j);
    PutEmpleadosOnly(PutGenerales(Empty(), gs), es, i);
  }

  /** A date only the employee calendar has (once) has no state unless the employee day gives one. */
  lemma MergeEmpleadoOnly(gs: seq<DiaGeneral>, es: seq<DiaBackend>, i: nat)
    requires i < |es| && es[i].fecha !in FechasG(gs)
    requires forall k :: 0 <= k < |es| && k != i ==> es[k].fecha != es[i].fecha
    ensures es[i].fecha in Merge(gs, es).vals
    ensures Merge(gs, es).vals[es[i].fecha] == FromEmpleado(es[i], None)
  {
    PutGeneralesOutside(Empty(), gs, es[i].fecha);
    PutEmpleadosOnly(PutGenerales(Empty(), gs), es, i);
  }

  // ---------------------------------------------------------------------
  // Monthly totals
  // ---------------------------------------------------------------------

  predicate Trabajado(d: DiaTrabajado) { d.minutos > 0 }

  /** `diasTrabajadosMes`: the entries with time worked, in record order. */
  function DiasTrabajadosMes(r: Rec<string, DiaTrabajado>): seq<DiaTrabajado>
    requires Valid(r)
  {
    Filter(Values(r), Trabajado)
  }

  /** `totalMinutos`. */
  function TotalMinutos(r: Rec<string, DiaTrabajado>): int
    requires Valid(r)
  {
    Sum(DiasTrabajadosMes(r), (d: DiaTrabajado) => d.minutos)
  }

  function PositivePart(d: DiaTrabajado): int {
    if d.minutos > 0 then d.minutos else 0
  }

  /** The count is the number of entries with time worked, and the total is their sum, never negative. */
  lemma TotalsOfMonth(r: Rec<string, DiaTrabajado>)
    requires Valid(r)
    ensures |DiasTrabajadosMes(r)| == Count(Values(r), Trabajado)
    ensures forall d :: d in DiasTrabajadosMes(r) ==> d.minutos > 0
    ensures TotalMinutos(r) == Sum(Values(r), PositivePart)
    ensures TotalMinutos(r) >= 0
  {
    var s := Values(r);
    var w := DiasTrabajadosMes(r);
    FilterLength(s, Trabajado);
    SumAgree(w, (d: DiaTrabajado) => d.minutos, PositivePart);
    SumFilterNonZero(s, PositivePart, Trabajado);
    SumNonNegative(s, PositivePart);
  }

  // ---------------------------------------------------------------------
  // Day cells
  // ---------------------------------------------------------------------

  /** `esFinDeSemana` of an ISO date, read as that calendar day. */
  predicate EsFinDeSemana(c: Civil)
    requires 1 <= c.month <= 12
  {
    Weekday(c) == 0 || Weekday(c) == 6
  }

  /**
   * The weekend days are the last two of the Monday-first week, and the
   * same weekday a week later in the month is again weekend or not.
   */
  lemma EsFinDeSemanaSemanal(c: Civil)
    requires 1 <= c.month <= 12
    ensures EsFinDeSemana(c) <==> IsoWeekday(DayNumber(c)) >= 6
    ensures EsFinDeSemana(Civil(c.year, c.month, c.day + 7)) <==> EsFinDeSemana(c)
  {
    var n := DayNumber(c);
    assert DayNumber(Civil(c.year, c.month, c.day + 7)) == n + 7;
    assert (n + 7 + 4) % 7 == (n + 4) % 7;
  }

  datatype DayClass =
    | ClaseVacaciones | ClaseBaja | ClaseFestivo | ClaseDiaLibre | ClaseFinDeSemana | ClaseTrabajado | ClaseNormal

  predicate EstadoIs(dia: Option<DiaTrabajado>, e: string) {
    dia.Some? && dia.value.estado == Some(e)
  }

  predicate EstadoFuerte(dia: Option<DiaTrabajado>) {
    EstadoIs(dia, VACACIONES) || EstadoIs(dia, BAJA) || EstadoIs(dia, FESTIVO)
  }

  /**
   * `getDayClasses`; `finDeSemana` is `None` when no date is given, else
   * whether the date falls on a weekend.
   */
  function GetDayClass(dia: Option<DiaTrabajado>, finDeSemana: Option<bool>): (c: DayClass)
    ensures c == ClaseVacaciones <==> EstadoIs(dia, VACACIONES)
    ensures c == ClaseBaja <==> EstadoIs(dia, BAJA)
    ensures c == ClaseFestivo <==> EstadoIs(dia, FESTIVO)
    ensures c == ClaseDiaLibre <==> EstadoIs(dia, DIA_LIBRE) && finDeSemana == Some(false)
    ensures c == ClaseFinDeSemana <==> !EstadoFuerte(dia) && finDeSemana == Some(true)
    ensures c == ClaseTrabajado <==>
      !EstadoFuerte(dia) && !(EstadoIs(dia, DIA_LIBRE) && finDeSemana == Some(false))
      && finDeSemana != Some(true) && dia.Some? && dia.value.minutos > 0
  {
    if EstadoIs(dia, VACACIONES) then ClaseVacaciones
    else if EstadoIs(dia, BAJA) then ClaseBaja
    else if EstadoIs(dia, FESTIVO) then ClaseFestivo
    else if EstadoIs(dia, DIA_LIBRE) && finDeSemana == Some(false) then ClaseDiaLibre
    else if finDeSemana == Some(true) then ClaseFinDeSemana
    else if dia.Some? && dia.value.minutos > 0 then ClaseTrabajado
    else ClaseNormal
  }

  /** `firstDayOfMonth === 0 ? 6 : firstDayOfMonth - 1`: Monday is column 0, Sunday column 6. */
  function Offset(weekday: int): (col: int)
    requires 0 <= weekday < 7
    ensures 0 <= col < 7 && (col + 1) % 7 == weekday
  {
    if weekday == 0 then 6 else weekday - 1
  }

  // ---------------------------------------------------------------------
  // Month buttons
  // ---------------------------------------------------------------------

  /** `Math.max(0, m - 1)`. */
  function MesAnterior(m: int): (r: int)
    requires 0 <= m <= 11
    ensures 0 <= r <= 11
    ensures r == m <==> m == 0
    ensures r != m ==> r == m - 1
  {
    if m - 1 > 0 then m - 1 else 0
  }

  /** `Math.min(11, m + 1)`. */
  function MesSiguiente(m: int): (r: int)
    requires 0 <= m <= 11
    ensures 0 <= r <= 11
    ensures r == m <==> m == 11
    ensures r != m ==> r == m + 1
  {
    if m + 1 < 11 then m + 1 else 11
  }

  predicate AnteriorDisabled(m: int) { m == 0 }
  predicate SiguienteDisabled(m: int) { m == 11 }

  /** A month button is disabled exactly when pressing it would change nothing. */
  lemma DisabledIffNoMove(m: int)
    requires 0 <= m <= 11
    ensures AnteriorDisabled(m) <==> MesAnterior(m) == m
    ensures SiguienteDisabled(m) <==> MesSiguiente(m) == m
  {
  }

  /** The two loops of `cargar` over a local map: organisation days first, then employee days. */
  method Fusionar(gs: seq<DiaGeneral>, es: seq<DiaBackend>) returns (m: Rec<string, DiaTrabajado>)
    ensures m == Merge(gs, es)
  {
    m := Empty();
    var i := 0;
    while i < |gs|
      invariant 0 <= i <= |gs|
      invariant m == PutGenerales(Empty(), gs[..i])
    {
      PutGeneralesPrefix(Empty(), gs, i);
      m := PonerGeneral(m, gs[i]);
      i := i + 1;
    }
    assert gs[..|gs|] == gs;
    var base := m;
    var j := 0;
    while j < |es|
      invariant 0 <= j <= |es|
      invariant m == PutEmpleados(base, es[..j])
    {
      PutEmpleadosPrefix(base, es, j);
      m := PonerEmpleado(m, es[j]);
      j := j + 1;
    }
    assert es[..|es|] == es;
  }

  /** The component's state: the month shown (0..11), the merged calendar and the open day. */
  class CalendarioLaboralView {
    var month: int
    var diasTrabajados: Rec<string, DiaTrabajado>
    var diaActivo: Option<DiaTrabajado>

    predicate Valid()
      reads this
    {
      0 <= month <= 11 && JsRecord.Valid(diasTrabajados)
    }

    constructor (mesActual: int)
      requires 0 <= mesActual <= 11
      ensures Valid() && month == mesActual && diasTrabajados == Empty() && diaActivo.None?
    {
      month := mesActual;
      diasTrabajados := Empty();
      diaActivo := None;
    }

    /** `cargar`: the calendar is rebuilt from empty, organisation days first, then employee days. */
    method Cargar(gs: seq<DiaGeneral>, es: seq<DiaBackend>)
      requires Valid()
      modifies this
      ensures Valid()
      ensures diasTrabajados == Merge(gs, es)
      ensures month == old(month) && diaActivo == old(diaActivo)
    {
      var m := Fusionar(gs, es);
      diasTrabajados := m;
    }

    /** Clicking a day cell opens the day only when the calendar has an entry for it. */
    method Seleccionar(fecha: string)
      requires Valid()
      modifies this
      ensures Valid()
      ensures fecha in diasTrabajados.vals ==> diaActivo == Some(diasTrabajados.vals[fecha])
      ensures fecha !in diasTrabajados.vals ==> diaActivo == old(diaActivo)
      ensures month == old(month) && diasTrabajados == old(diasTrabajados)
    {
      if fecha in diasTrabajados.vals {
        diaActivo := Some(diasTrabajados.vals[fecha]);
      }
    }

    /** The panel's "Cerrar": the open day closes; nothing else changes. */
    method Cerrar()
      modifies this`diaActivo
      ensures diaActivo.None?
    {
      diaActivo := None;
    }

    method Anterior()
      requires Valid()
      modifies this
      ensures Valid() && month == MesAnterior(old(month))
      ensures diasTrabajados == old(diasTrabajados) && diaActivo == old(diaActivo)
    {
      month := MesAnterior(month);
    }

    method Siguiente()
      requires Valid()
      modifies this
      ensures Valid() && month == MesSiguiente(old(month))
      ensures diasTrabajados == old(diasTrabajados) && diaActivo == old(diaActivo)
    {
      month := MesSiguiente(month);
    }
  }
}
