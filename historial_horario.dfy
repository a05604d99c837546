/**
 * The employee's monthly history: the month's totals, the days grouped into
 * Monday-to-Sunday weeks with a balance against the contracted weekly hours,
 * the month navigation that never goes past the current month, and the
 * sorted clock events of an opened day.
 */
module HistorialHorario {
  import opened Base
  import opened Strings
  import opened Seqs
  import opened JsRecord
  import opened Dates
  import Sorting
  import opened Durations

  /** A date the server sent, read as its calendar day. */
  type Fecha = c: Civil | 1 <= c.month <= 12 witness Civil(1970, 1, 1)

  datatype TipoFichaje = Entrada | Salida

  datatype Fichaje = Fichaje(tipo: TipoFichaje, hora: string)

  /** A day of the history; `minutosTrabajados` is `None` when the server leaves it out. */
  datatype Dia = Dia(fecha: Fecha, diaSemana: string, minutosTrabajados: Option<int>, fichajes: seq<Fichaje>)

  /** `dia.minutosTrabajados ?? 0`. */
  function Minutos(d: Dia): int {
    d.minutosTrabajados.GetOr(0)
  }

  // ---------------------------------------------------------------------
  // Month totals
  // ---------------------------------------------------------------------

  predicate Trabajado(d: Dia) { Minutos(d) > 0 }

  /** `diasTrabajados`: how many days have time worked. */
  function DiasTrabajados(dias: seq<Dia>): (n: nat)
    ensures n == Count(dias, Trabajado)
    ensures n <= |dias|
  {
    FilterLength(dias, Trabajado);
    |Filter(dias, Trabajado)|
  }

  /** `totalMinutosMes`: the minutes of every day, whatever their sign. */
  function TotalMinutosMes(dias: seq<Dia>): int {
    Sum(dias, Minutos)
  }

  /** With no negative day, the month total is the total of the days worked. */
  lemma TotalOfWorkedDays(dias: seq<Dia>)
    requires forall i :: 0 <= i < |dias| ==> Minutos(dias[i]) >= 0
    ensures TotalMinutosMes(dias) == Sum(Filter(dias, Trabajado), Minutos)
    ensures TotalMinutosMes(dias) >= 0
  {
    SumFilterNonZeroIn(dias, Minutos, Trabajado);
    SumNonNegative(dias, Minutos);
  }

  // ---------------------------------------------------------------------
  // Weeks
  // ---------------------------------------------------------------------

  /**
   * `getWeekRange(...).key`: the Monday of the day's week, as a day number;
   * Sunday counts as day 7, so it belongs to the Monday six days before.
   */
  function WeekKey(f: Fecha): (m: int)
    ensures m <= DayNumber(f) <= m + 6
    ensures WeekdayOfDayNumber(m) == 1
    ensures Weekday(f) == 0 ==> m == DayNumber(f) - 6
  {
    SundayBelongsToPrecedingMonday(DayNumber(f));
    MondayOf(DayNumber(f))
  }

  /** Two days share a bucket exactly when they lie in the same Monday-to-Sunday week. */
  lemma SameWeek(a: Fecha, b: Fecha)
    ensures WeekKey(a) == WeekKey(b) <==> WeekKey(a) <= DayNumber(b) <= WeekKey(a) + 6
  {
    SameWeekIff(DayNumber(a), DayNumber(b));
  }

  /** A week bucket: its days in the order they came and the sum of their minutes. */
  datatype Semana = Semana(dias: seq<Dia>, totalMin: int)

  function TotalMin(s: Semana): int { s.totalMin }

  /** One step of the `forEach`: create the bucket if missing, then append the day and add its minutes. */
  function AddDia(r: Rec<int, Semana>, d: Dia): (r': Rec<int, Semana>)
    requires Valid(r)
    ensures Valid(r')
  {
    var k := WeekKey(d.fecha);
    Put(r, k, Appended(Bucket(r, k), d))
  }

  /** The bucket of week `k`, or a fresh one. */
  function Bucket(r: Rec<int, Semana>, k: int): (w: Semana)
    ensures k in r.vals ==> w == r.vals[k]
    ensures k !in r.vals ==> w == Semana([], 0)
  {
    if k in r.vals then r.vals[k] else Semana([], 0)
  }

  /** A bucket with one more day. */
  function Appended(w: Semana, d: Dia): (w': Semana)
    ensures w'.dias == w.dias + [d] && w'.totalMin == w.totalMin + Minutos(d)
  {
    Semana(w.dias + [d], w.totalMin + Minutos(d))
  }

  /** The buckets after the whole month. */
  function Semanas(dias: seq<Dia>): (r: Rec<int, Semana>)
    ensures Valid(r)
  {
    if dias == [] then Empty() else AddDia(Semanas(dias[..|dias| - 1]), dias[|dias| - 1])
  }

  /** The days of the month that fall in the week of Monday `k`, in order. */
  function DiasDeSemana(dias: seq<Dia>, k: int): (ds: seq<Dia>)
    ensures forall i :: 0 <= i < |ds| ==> ds[i] in dias && WeekKey(ds[i].fecha) == k
    ensures forall i :: 0 <= i < |dias| && WeekKey(dias[i].fecha) == k ==> dias[i] in ds
  {
    if dias == [] then []
    else
      var init := dias[..|dias| - 1];
      var last := dias[|dias| - 1];
      assert dias == init + [last];
      DiasDeSemana(init, k) + (if WeekKey(last.fecha) == k then [last] else [])
  }

  /** Whether some day of the month falls in the week of Monday `k`. */
  predicate HasWeek(dias: seq<Dia>, k: int) {
    exists i :: 0 <= i < |dias| && WeekKey(dias[i].fecha) == k
  }

  lemma HasWeekSnoc(dias: seq<Dia>, k: int)
    requires dias != []
    ensures HasWeek(dias, k) <==> HasWeek(dias[..|dias| - 1], k) || WeekKey(dias[|dias| - 1].fecha) == k
  {
    var init := dias[..|dias| - 1];
    if HasWeek(dias, k) && WeekKey(dias[|dias| - 1].fecha) != k {
      var i :| 0 <= i < |dias| && WeekKey(dias[i].fecha) == k;
      assert init[i] == dias[i];
    }
    if HasWeek(init, k) {
      var i :| 0 <= i < |init| && WeekKey(init[i].fecha) == k;
      assert dias[i] == init[i];
    }
  }

  /** The buckets are exactly the weeks some day of the month falls in. */
  lemma {:induction false} SemanasKeys(dias: seq<Dia>)
    ensures forall k :: k in Semanas(dias).vals <==> HasWeek(dias, k)
  {
    if dias != [] {
      SemanasKeys(dias[..|dias| - 1]);
      forall k ensures k in Semanas(dias).vals <==> HasWeek(dias, k) {
        HasWeekSnoc(dias, k);
      }
    }
  }

  /** A week no day falls in has no days. */
  lemma {:induction false} DiasDeSemanaNone(dias: seq<Dia>, k: int)
    requires !HasWeek(dias, k)
    ensures DiasDeSemana(dias, k) == []
  {
    if dias != [] {
      HasWeekSnoc(dias, k);
      DiasDeSemanaNone(dias[..|dias| - 1], k);
    }
  }

  /**
   * Every day lands in the bucket of its own Monday and in no other: a
   * bucket holds its week's days in order, and its total is the sum of
   * their minutes.
   */
  lemma {:induction false} SemanasBucket(dias: seq<Dia>, k: int)
    requires k in Semanas(dias).vals
    ensures Semanas(dias).vals[k].dias == DiasDeSemana(dias, k)
    ensures Semanas(dias).vals[k].totalMin == Sum(DiasDeSemana(dias, k), Minutos)
  {
    var init := dias[..|dias| - 1];
    var last := dias[|dias| - 1];
    var r := Semanas(init);
    if k == WeekKey(last.fecha) {
      if k in r.vals {
        SemanasBucket(init, k);
      } else {
        SemanasKeys(init);
        DiasDeSemanaNone(init, k);
      }
      SumAppend(DiasDeSemana(init, k), [last], Minutos);
    } else {
      SemanasBucket(init, k);
    }
  }

  /** The bucket totals add up to the month total. */
  lemma {:induction false} SemanasTotal(dias: seq<Dia>)
    ensures JsRecord.Total(Semanas(dias), TotalMin) == TotalMinutosMes(dias)
  {
    if dias != [] {
      var init := dias[..|dias| - 1];
      var last := dias[|dias| - 1];
      SemanasTotal(init);
      AddDiaTotal(Semanas(init), last);
    }
  }

  /** One day adds its minutes to the bucket totals. */
  lemma AddDiaTotal(r: Rec<int, Semana>, d: Dia)
    requires Valid(r)
    ensures JsRecord.Total(AddDia(r, d), TotalMin) == JsRecord.Total(r, TotalMin) + Minutos(d)
  {
    AppendToBucketTotal(r, WeekKey(d.fecha), d);
  }

  lemma AppendToBucketTotal(r: Rec<int, Semana>, k: int, d: Dia)
    requires Valid(r)
    ensures JsRecord.Total(Put(r, k, Appended(Bucket(r, k), d)), TotalMin) == JsRecord.Total(r, TotalMin) + Minutos(d)
  {
    PutTotal(r, k, Appended(Bucket(r, k), d), TotalMin);
  }

  lemma SemanasPrefix(dias: seq<Dia>, i: nat)
    requires i < |dias|
    ensures Semanas(dias[..i + 1]) == AddDia(Semanas(dias[..i]), dias[i])
  {
    assert dias[..i + 1][..i] == dias[..i];
  }

  /** `if (!semanas[key]) semanas[key] = { dias: [], totalMin: 0 }`. */
  function CrearSemana(r: Rec<int, Semana>, k: int): (r': Rec<int, Semana>)
    requires Valid(r)
    ensures Valid(r') && k in r'.vals
  {
    if k in r.vals then r else Put(r, k, Semana([], 0))
  }

  /** `semanas[key].dias.push(d); semanas[key].totalMin += minutos`. */
  function Anotar(r: Rec<int, Semana>, k: int, d: Dia): (r': Rec<int, Semana>)
    requires Valid(r) && k in r.vals
    ensures Valid(r')
  {
    Put(r, k, Appended(r.vals[k], d))
  }

  /** Creating a missing bucket and then filling it is one step of `AddDia`. */
  lemma CrearYAnotar(r: Rec<int, Semana>, k: int, d: Dia)
    requires Valid(r)
    ensures Anotar(CrearSemana(r, k), k, d) == Put(r, k, Appended(Bucket(r, k), d))
  {
  }

  /** The bucketing loop over the month's days. */
  method AgruparSemanas(dias: seq<Dia>) returns (semanas: Rec<int, Semana>)
    ensures semanas == Semanas(dias)
  {
    semanas := Empty();
    var i := 0;
    while i < |dias|
      invariant 0 <= i <= |dias|
      invariant Valid(semanas) && semanas == Semanas(dias[..i])
    {
      SemanasPrefix(dias, i);
      var key := WeekKey(dias[i].fecha);
      CrearYAnotar(semanas, key, dias[i]);
      semanas := CrearSemana(semanas, key);
      semanas := Anotar(semanas, key, dias[i]);
      i := i + 1;
    }
    assert dias[..|dias|] == dias;
  }

  // ---------------------------------------------------------------------
  // What a week shows
  // ---------------------------------------------------------------------

  /** `Number(data.horasContratadasSemana ?? 0) * 60`, for whole hours. */
  function MinutosContratoSemana(horasContratadasSemana: Option<int>): int {
    horasContratadasSemana.GetOr(0) * 60
  }

  /** The week's balance against the contract. */
  function Diff(totalMin: int, minutosContrato: int): int {
    totalMin - minutosContrato
  }

  function Abs(n: int): nat { if n < 0 then -n else n }

  /** "+" for a surplus, "-" for a shortfall, nothing for an exact week; then the size of the difference. */
  function DiffLabel(diff: int): (s: string)
    ensures diff > 0 ==> s == "+" + MinToHoras(Abs(diff))
    ensures diff < 0 ==> s == "-" + MinToHoras(Abs(diff))
    ensures diff == 0 ==> s == MinToHoras(0)
  {
    (if diff > 0 then "+" else if diff < 0 then "-" else "") + MinToHoras(Abs(diff))
  }

  /** Reads a balance label back. */
  function ReadDiffLabel(s: string): Option<int> {
    if s != [] && s[0] == '+' then
      match ReadHoras(s[1..]) case None => None case Some(n) => Some(n)
    else if s != [] && s[0] == '-' then
      match ReadHoras(s[1..]) case None => None case Some(n) => Some(-n)
    else ReadHoras(s)
  }

  lemma ReadSigned(L: string, n: nat)
    requires ReadHoras(L) == Some(n)
    ensures ReadDiffLabel("+" + L) == Some(n)
    ensures ReadDiffLabel("-" + L) == Some(-(n as int))
  {
    assert ("+" + L)[1..] == L;
    assert ("-" + L)[1..] == L;
  }

  lemma ReadUnsigned(L: string, n: nat)
    requires ReadHoras(L) == Some(n) && L != [] && IsDigit(L[0])
    ensures ReadDiffLabel(L) == Some(n)
  {
  }

  /** Every balance label reads back as its balance, so the sign and the magnitude are both shown. */
  lemma DiffLabelRoundTrip(diff: int)
    ensures ReadDiffLabel(DiffLabel(diff)) == Some(diff)
  {
    var L := MinToHoras(Abs(diff));
    MinToHorasRoundTrip(Abs(diff));
    if diff != 0 {
      ReadSigned(L, Abs(diff));
    } else {
      MinToHorasParts(0);
      ReadUnsigned(L, 0);
    }
  }

  datatype DiffColor = Verde | Rojo | Neutro

  function DiffColorOf(diff: int): (c: DiffColor)
    ensures c == Verde <==> diff > 0
    ensures c == Rojo <==> diff < 0
  {
    if diff > 0 then Verde else if diff < 0 then Rojo else Neutro
  }

  /**
   * A week's balance line: the label reads back as the minutes worked minus
   * the contract, green exactly on a surplus; with no contract hours every
   * minute worked is surplus.
   */
  lemma WeekBalance(totalMin: int, horasContratadasSemana: Option<int>)
    ensures ReadDiffLabel(DiffLabel(Diff(totalMin, MinutosContratoSemana(horasContratadasSemana))))
      == Some(totalMin - horasContratadasSemana.GetOr(0) * 60)
    ensures DiffColorOf(Diff(totalMin, MinutosContratoSemana(horasContratadasSemana))) == Verde
      <==> totalMin > horasContratadasSemana.GetOr(0) * 60
    ensures horasContratadasSemana.None? ==> Diff(totalMin, MinutosContratoSemana(horasContratadasSemana)) == totalMin
  {
    DiffLabelRoundTrip(Diff(totalMin, MinutosContratoSemana(horasContratadasSemana)));
  }

  predicate ConMinutos(s: Semana) { s.totalMin > 0 }

  /** The weeks listed: those with time worked, in bucket order. */
  function SemanasVisibles(r: Rec<int, Semana>): seq<Semana>
    requires Valid(r)
  {
    Filter(Values(r), ConMinutos)
  }

  /** The days listed in a week: those with time worked. */
  function DiasVisibles(s: Semana): seq<Dia> {
    Filter(s.dias, Trabajado)
  }

  /** With no negative day, no bucket total is negative. */
  lemma SemanasNonNegative(dias: seq<Dia>, k: int)
    requires forall i :: 0 <= i < |dias| ==> Minutos(dias[i]) >= 0
    requires k in Semanas(dias).vals
    ensures Semanas(dias).vals[k].totalMin >= 0
  {
    SemanasBucket(dias, k);
    var ds := DiasDeSemana(dias, k);
    forall i | 0 <= i < |ds| ensures Minutos(ds[i]) >= 0 {
      assert ds[i] in dias;
    }
    SumNonNegative(ds, Minutos);
  }

  /** With no negative day, the weeks left out hold no time: the listed weeks still add up to the month. */
  lemma SemanasVisiblesTotal(dias: seq<Dia>)
    requires forall i :: 0 <= i < |dias| ==> Minutos(dias[i]) >= 0
    ensures Sum(SemanasVisibles(Semanas(dias)), TotalMin) == TotalMinutosMes(dias)
  {
    var r := Semanas(dias);
    var vs := Values(r);
    forall i | 0 <= i < |vs| ensures TotalMin(vs[i]) >= 0 {
      SemanasNonNegative(dias, r.keys[i]);
    }
    SumFilterNonZeroIn(vs, TotalMin, ConMinutos);
    TotalIsSumOfValues(r, TotalMin);
    SemanasTotal(dias);
  }

  // ---------------------------------------------------------------------
  // An opened day
  // ---------------------------------------------------------------------

  predicate HoraLe(a: Fichaje, b: Fichaje) { StrLe(a.hora, b.hora) }

  /** `[...dia.fichajes].sort(...)` by time: the same events, in time order. */
  function FichajesOrdenados(fs: seq<Fichaje>): (r: seq<Fichaje>)
    ensures multiset(r) == multiset(fs)
    ensures forall i, j :: 0 <= i < j < |r| ==> StrLe(r[i].hora, r[j].hora)
  {
    forall a: Fichaje, b: Fichaje ensures HoraLe(a, b) || HoraLe(b, a) {
      StrLeTotal(a.hora, b.hora);
    }
    forall a: Fichaje, b: Fichaje, c: Fichaje | HoraLe(a, b) && HoraLe(b, c) ensures HoraLe(a, c) {
      StrLeTransitive(a.hora, b.hora, c.hora);
    }
    Sorting.SortBySorted(fs, HoraLe);
    Sorting.AdjacentToPairwise(Sorting.SortBy(fs, HoraLe), HoraLe);
    Sorting.SortBy(fs, HoraLe)
  }

  /** Clicking a day's header opens it, or closes it when it is the one open. */
  function Toggle(openDay: Option<Fecha>, fecha: Fecha): (r: Option<Fecha>)
    ensures r == Some(fecha) <==> openDay != Some(fecha)
    ensures r != Some(fecha) ==> r.None?
  {
    if openDay == Some(fecha) then None else Some(fecha)
  }

  /** Two clicks on a closed day's header leave it closed. */
  lemma ToggleTwice(fecha: Fecha)
    ensures Toggle(Toggle(None, fecha), fecha) == None
  {
  }

  // ---------------------------------------------------------------------
  // Month navigation
  // ---------------------------------------------------------------------

  /** `esMesFuturo`: the month starts after the current one; an unreadable key is never in the future. */
  predicate EsMesFuturo(mes: string, ahora: YearMonth) {
    match ParseMonthKey(mes)
    case None => false
    case Some((y, m)) => MonthIndex(MonthStart(y, m - 1)) > MonthIndex(ahora)
  }

  /** The "next" button. */
  predicate SiguienteDisabled(mes: string, ahora: YearMonth) {
    EsMesFuturo(ShiftMonthKey(mes, 1), ahora)
  }

  /** A well-formed month key is in the future exactly when its month comes after the current one. */
  lemma EsMesFuturoOfKey(ym: YearMonth, ahora: YearMonth)
    requires ValidYearMonth(ym) && ym.year >= 100
    ensures EsMesFuturo(FormatMonthKey(ym), ahora) <==> MonthIndex(ym) > MonthIndex(ahora)
  {
    ParseFormatMonthKey(ym);
  }

  /** The "next" button is disabled exactly from the current month on. */
  lemma SiguienteDisabledIff(ym: YearMonth, ahora: YearMonth)
    requires ValidYearMonth(ym) && ym.year >= 100
    ensures SiguienteDisabled(FormatMonthKey(ym), ahora) <==> MonthIndex(ym) >= MonthIndex(ahora)
  {
    var next := MonthStart(ym.year, ym.month);
    ShiftFormattedKey(ym, 1, next);
    EsMesFuturoOfKey(next, ahora);
  }

  /** The month a click on "next" leads to: the following one, unless the button is disabled. */
  function MesSiguiente(mes: string, ahora: YearMonth): string {
    if SiguienteDisabled(mes, ahora) then mes else ShiftMonthKey(mes, 1)
  }

  /** From a month before the current one, "next" moves one month on; from the current month it stays. */
  lemma MesSiguienteOfKey(ym: YearMonth, ahora: YearMonth)
    requires ValidYearMonth(ym) && ym.year >= 100
    ensures MonthIndex(ym) < MonthIndex(ahora) ==>
      MesSiguiente(FormatMonthKey(ym), ahora) == FormatMonthKey(MonthStart(ym.year, ym.month))
    ensures MonthIndex(ym) >= MonthIndex(ahora) ==> MesSiguiente(FormatMonthKey(ym), ahora) == FormatMonthKey(ym)
  {
    SiguienteDisabledIff(ym, ahora);
    ShiftFormattedKey(ym, 1, MonthStart(ym.year, ym.month));
  }

  /** The screen's state: the month shown, the data loaded for it and the day opened. */
  class HistorialHorarioView {
    var mesActual: string
    var dias: Option<seq<Dia>>
    var horasContratadasSemana: Option<int>
    var openDay: Option<Fecha>

    constructor (mesSistema: string)
      ensures mesActual == mesSistema && dias.None? && openDay.None?
    {
      mesActual := mesSistema;
      dias := None;
      horasContratadasSemana := None;
      openDay := None;
    }

    /** `cargar`: the answer for the month, or nothing when the request failed. */
    method Cargar(respuesta: Option<(seq<Dia>, Option<int>)>)
      modifies this
      ensures respuesta.Some? ==> dias == Some(respuesta.value.0) && horasContratadasSemana == respuesta.value.1
      ensures respuesta.None? ==> dias.None? && horasContratadasSemana == old(horasContratadasSemana)
      ensures mesActual == old(mesActual) && openDay == old(openDay)
    {
      if respuesta.Some? {
        dias := Some(respuesta.value.0);
        horasContratadasSemana := respuesta.value.1;
      } else {
        dias := None;
      }
    }

    /** The "previous" button, always enabled; only the month changes. */
    method Anterior()
      modifies this`mesActual
      ensures mesActual == ShiftMonthKey(old(mesActual), -1)
    {
      mesActual := ShiftMonthKey(mesActual, -1);
    }

    /** The "next" button, which does nothing while disabled. */
    method Siguiente(ahora: YearMonth)
      modifies this`mesActual
      ensures mesActual == MesSiguiente(old(mesActual), ahora)
    {
      mesActual := MesSiguiente(mesActual, ahora);
    }

    method ToggleDay(fecha: Fecha)
      modifies this
      ensures openDay == Toggle(old(openDay), fecha)
      ensures mesActual == old(mesActual) && dias == old(dias) && horasContratadasSemana == old(horasContratadasSemana)
    {
      openDay := Toggle(openDay, fecha);
    }
  }
}
