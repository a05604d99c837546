/**
 * The CRM sales ledger page: the global search that replaces the month list
 * while active, the request list sorted by creation time, the period
 * selector's limits for employees, and the page's own updates to the loaded
 * list (clearing a revision mark, the edit modal's patch, deletion).
 */
module LibroCrm {
  import opened Base
  import opened Strings
  import opened Seqs
  import opened Sorting
  import opened Dates
  import opened Ventas

  /** The search applies once the trimmed query has at least two characters. */
  predicate SearchActive(search: string) {
    |Trim(search)| >= 2
  }

  /** The answer to `/ventas/buscar`: a body (possibly null) or a failure. */
  datatype SearchResponse = Results(data: Option<seq<Venta>>) | SearchFailed

  /** `ventasBusqueda` after the search effect settles for `search`. */
  function Busqueda(search: string, response: SearchResponse): (r: Option<seq<Venta>>)
    ensures !SearchActive(search) <==> r.None?
    ensures SearchActive(search) && response.SearchFailed? ==> r == Some([])
    ensures SearchActive(search) && response.Results? && response.data.Some? ==> r == response.data
    ensures SearchActive(search) && response.Results? && response.data.None? ==> r == Some([])
  {
    if !SearchActive(search) then None
    else match response
      case SearchFailed => Some([])
      case Results(data) => Some(data.GetOr([]))
  }

  /** `ventasBase`: the search results while there are any, else the month list. */
  function VentasBase(busqueda: Option<seq<Venta>>, ventas: seq<Venta>): (r: seq<Venta>)
    ensures busqueda.None? ==> r == ventas
    ensures busqueda.Some? ==> r == busqueda.value
  {
    if busqueda.Some? then busqueda.value else ventas
  }

  /** A query of fewer than two significant characters always shows the month list. */
  lemma ShortQueryShowsMonth(search: string, response: SearchResponse, ventas: seq<Venta>)
    requires |Trim(search)| < 2
    ensures VentasBase(Busqueda(search, response), ventas) == ventas
  {
  }

  /** A request, with its creation time in milliseconds. */
  datatype Solicitud = Solicitud(id: string, tipo: string, ventaId: string, createdAt: int)

  predicate CreatedNoLater(a: Solicitud, b: Solicitud) { a.createdAt <= b.createdAt }

  /** `solicitudesOrdenadas`: a sorted copy; the list it came from is a value and stays as it was. */
  function SolicitudesOrdenadas(sols: seq<Solicitud>): (r: seq<Solicitud>)
    ensures multiset(r) == multiset(sols)
  {
    SortBy(sols, CreatedNoLater)
  }

  /** The sorted copy is in ascending creation order. */
  lemma SolicitudesOrdenadasSorted(sols: seq<Solicitud>)
    ensures forall i, j :: 0 <= i < j < |SolicitudesOrdenadas(sols)| ==>
      SolicitudesOrdenadas(sols)[i].createdAt <= SolicitudesOrdenadas(sols)[j].createdAt
  {
    SortBySorted(sols, CreatedNoLater);
    AdjacentToPairwise(SortBy(sols, CreatedNoLater), CreatedNoLater);
  }

  /** Requests created at the same instant keep the order the server sent them in. */
  lemma SolicitudesOrdenadasKeepTies(sols: seq<Solicitud>, x: Solicitud)
    ensures TiedWith(SolicitudesOrdenadas(sols), x, CreatedNoLater) == TiedWith(sols, x, CreatedNoLater)
  {
    SortByStable(sols, x, CreatedNoLater);
  }

  /** A list that is already in creation order is shown as it is. */
  lemma SolicitudesOrdenadasStable(sols: seq<Solicitud>)
    requires forall i :: 0 < i < |sols| ==> sols[i - 1].createdAt <= sols[i].createdAt
    ensures SolicitudesOrdenadas(sols) == sols
  {
    SortByOfSorted(sols, CreatedNoLater);
  }

  /**
   * The period selector: `new Date(anio, mes - 2, 1)` must not fall before the
   * first of the current month, `new Date(anio, mes, 1)` not after the first
   * of the month after next. `hoy` is the current month.
   */
  predicate PrevDisabled(isAdmin: bool, anio: int, mes: int, hoy: YearMonth) {
    !isAdmin && MonthIndex(MonthStart(anio, mes - 2)) < MonthIndex(MonthStart(hoy.year, hoy.month - 1))
  }

  predicate NextDisabled(isAdmin: bool, anio: int, mes: int, hoy: YearMonth) {
    !isAdmin && MonthIndex(MonthStart(anio, mes)) > MonthIndex(MonthStart(hoy.year, hoy.month + 1))
  }

  /** An employee's period: from the current month to the month after next. */
  predicate InEmployeeRange(p: YearMonth, hoy: YearMonth) {
    MonthIndex(hoy) <= MonthIndex(p) <= MonthIndex(hoy) + 2
  }

  /** Admins are never held back. */
  lemma AdminUnlimited(anio: int, mes: int, hoy: YearMonth)
    ensures !PrevDisabled(true, anio, mes, hoy) && !NextDisabled(true, anio, mes, hoy)
  {
  }

  /** An employee inside the range stays inside whichever enabled arrow they press. */
  lemma EmployeeStaysInRange(p: YearMonth, hoy: YearMonth)
    requires ValidYearMonth(p) && ValidYearMonth(hoy) && p.year >= 100 && hoy.year >= 100
    requires InEmployeeRange(p, hoy)
    ensures !PrevDisabled(false, p.year, p.month, hoy) ==>
      InEmployeeRange(MonthStart(p.year, p.month - 2), hoy)
    ensures !NextDisabled(false, p.year, p.month, hoy) ==>
      InEmployeeRange(MonthStart(p.year, p.month), hoy)
  {
    MonthStartShift(p, -1);
    MonthStartShift(p, 1);
    MonthStartShift(hoy, 0);
    MonthStartShift(hoy, 2);
  }

  /** At the first allowed month "previous" is disabled; at the last, "next". */
  lemma EmployeeRangeEnds(p: YearMonth, hoy: YearMonth)
    requires ValidYearMonth(p) && ValidYearMonth(hoy) && p.year >= 100 && hoy.year >= 100
    ensures MonthIndex(p) == MonthIndex(hoy) ==> PrevDisabled(false, p.year, p.month, hoy)
    ensures MonthIndex(p) == MonthIndex(hoy) + 2 ==> NextDisabled(false, p.year, p.month, hoy)
  {
    MonthStartShift(p, -1);
    MonthStartShift(p, 1);
    MonthStartShift(hoy, 0);
    MonthStartShift(hoy, 2);
  }

  /** `Math.max(prev - 1, 0)`. */
  function BoundedDecrement(n: int): (r: nat)
    ensures n >= 1 ==> r == n - 1
    ensures n < 1 ==> r == 0
  {
    if n - 1 > 0 then n - 1 else 0
  }

  /** The edit modal's answer: an id and, possibly, the new revision state (which may be null). */
  datatype SavedPatch = SavedPatch(id: Option<string>, estadoRevision: Option<Option<string>>)

  function KeepOrSet(v: Venta, value: Option<Option<string>>): Venta {
    v.(estadoRevision := value.GetOr(v.estadoRevision))
  }

  /** `onSaved`: the matching row takes the patch's revision state, if the patch has one. */
  function ApplySaved(vs: seq<Venta>, patch: Option<SavedPatch>): (r: seq<Venta>)
    ensures |r| == |vs|
    ensures forall i :: 0 <= i < |vs| ==>
      r[i].id == vs[i].id && r[i].primaNeta == vs[i].primaNeta && r[i].estado == vs[i].estado
    ensures forall i :: 0 <= i < |vs| ==>
      if patch.Some? && Truthy(patch.value.id) && vs[i].id == patch.value.id.value
         && patch.value.estadoRevision.Some?
      then r[i] == vs[i].(estadoRevision := patch.value.estadoRevision.value)
      else r[i] == vs[i]
  {
    if patch.Some? && Truthy(patch.value.id) then
      MapWhere(vs, patch.value.id.value, v => KeepOrSet(v, patch.value.estadoRevision))
    else vs
  }

  /** A patch without a revision state leaves every row as it was. */
  lemma ApplySavedNoField(vs: seq<Venta>, id: Option<string>)
    ensures ApplySaved(vs, Some(SavedPatch(id, None))) == vs
  {
    var r := ApplySaved(vs, Some(SavedPatch(id, None)));
    assert forall i :: 0 <= i < |vs| ==> r[i] == vs[i];
  }

  /** `ventas.find(v => v._id === id)`. */
  function Find(vs: seq<Venta>, id: string): (r: Option<Venta>)
    ensures r.Some? <==> exists i :: 0 <= i < |vs| && vs[i].id == id
    ensures r.Some? ==> r.value in vs && r.value.id == id
  {
    if vs == [] then None
    else if vs[0].id == id then Some(vs[0])
    else
      var r := Find(vs[1..], id);
      assert forall i :: 1 <= i < |vs| ==> vs[i] == vs[1..][i - 1];
      r
  }

  class LibroPage {
    const isAdmin: bool
    var ventas: seq<Venta>
    var revisionCount: int
    var ventaAEliminar: Option<Venta>
    var showDeleteInfo: bool

    constructor (isAdmin: bool, ventas: seq<Venta>, revisionCount: int)
      ensures this.isAdmin == isAdmin && this.ventas == ventas && this.revisionCount == revisionCount
      ensures ventaAEliminar.None? && !showDeleteInfo
    {
      this.isAdmin := isAdmin;
      this.ventas := ventas;
      this.revisionCount := revisionCount;
      ventaAEliminar := None;
      showDeleteInfo := false;
    }

    /**
     * `onClearRevision`: once the server acknowledges, the row loses its mark
     * and the counter drops by one, never below zero. If the call fails
     * nothing changes.
     */
    method OnClearRevision(rowId: string, outcome: CallOutcome)
      modifies this
      ensures outcome.Ok? ==> ventas == MapWhere(old(ventas), rowId, ClearMark)
      ensures outcome.Ok? ==> revisionCount == BoundedDecrement(old(revisionCount))
      ensures !outcome.Ok? ==> ventas == old(ventas) && revisionCount == old(revisionCount)
      ensures revisionCount >= 0 || revisionCount == old(revisionCount)
      ensures ventaAEliminar == old(ventaAEliminar) && showDeleteInfo == old(showDeleteInfo)
    {
      if !outcome.Ok? {
        return;
      }
      ventas := MapWhere(ventas, rowId, ClearMark);
      revisionCount := BoundedDecrement(revisionCount);
    }

    /** `onSaved`. */
    method OnSaved(patch: Option<SavedPatch>)
      modifies this
      ensures ventas == ApplySaved(old(ventas), patch)
      ensures revisionCount == old(revisionCount)
      ensures ventaAEliminar == old(ventaAEliminar) && showDeleteInfo == old(showDeleteInfo)
    {
      ventas := ApplySaved(ventas, patch);
    }

    /** The row's delete button: the loaded sale with that id, if any, awaits confirmation. */
    method OnDelete(rowId: string)
      modifies this
      ensures ventaAEliminar == (if Find(ventas, rowId).Some? then Find(ventas, rowId) else old(ventaAEliminar))
      ensures ventas == old(ventas) && revisionCount == old(revisionCount)
      ensures showDeleteInfo == old(showDeleteInfo)
    {
      var original := Find(ventas, rowId);
      if original.Some? {
        ventaAEliminar := original;
      }
    }

    /**
     * Confirming the deletion: success removes the sale locally; a 403 only
     * closes the dialog and opens the information modal; any other failure
     * leaves everything as it was.
     */
    method ConfirmDelete(outcome: CallOutcome)
      requires ventaAEliminar.Some?
      modifies this
      ensures outcome.Ok? ==> ventas == RemoveId(old(ventas), old(ventaAEliminar).value.id)
      ensures outcome.Ok? ==> ventaAEliminar.None? && showDeleteInfo == old(showDeleteInfo)
      ensures outcome.IsForbidden() ==> ventas == old(ventas) && ventaAEliminar.None? && showDeleteInfo
      ensures !outcome.Ok? && !outcome.IsForbidden() ==> ventas == old(ventas)
      ensures !outcome.Ok? && !outcome.IsForbidden() ==>
        ventaAEliminar == old(ventaAEliminar) && showDeleteInfo == old(showDeleteInfo)
      ensures revisionCount == old(revisionCount)
    {
      if outcome.Ok? {
        ventas := RemoveId(ventas, ventaAEliminar.value.id);
        ventaAEliminar := None;
      } else if outcome.IsForbidden() {
        ventaAEliminar := None;
        showDeleteInfo := true;
      }
    }
  }
}
