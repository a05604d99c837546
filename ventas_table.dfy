/**
 * The sales table: the colour of each row, what a click on a row does, the
 * label of the edit button, and which action buttons a row shows.
 */
module VentasTable {
  import opened Base
  import opened Ventas
  import VentasSocket

  /** The row colours, in the order the classification tries them. */
  datatype RowTone = AnuladaTone | AdminPendingTone | PendingTone | AcceptedTone | RejectedTone | PlainTone

  /** `getRowClass`: ANULADA first, then the admin's blue for pending, then the employee's colours. */
  function RowClass(v: Venta, isAdmin: bool): (t: RowTone)
    ensures v.estado == Some(ANULADA) <==> t == AnuladaTone
    ensures v.estado != Some(ANULADA) && isAdmin ==>
      (t == AdminPendingTone <==> v.estadoRevision == Some(PENDIENTE)) && (t == AdminPendingTone || t == PlainTone)
    ensures v.estado != Some(ANULADA) && !isAdmin ==>
      t == (if v.estadoRevision == Some(PENDIENTE) then PendingTone
            else if v.estadoRevision == Some(ACEPTADA) then AcceptedTone
            else if v.estadoRevision == Some(RECHAZADA) then RejectedTone
            else PlainTone)
  {
    if v.estado == Some(ANULADA) then AnuladaTone
    else if isAdmin then (if v.estadoRevision == Some(PENDIENTE) then AdminPendingTone else PlainTone)
    else match v.estadoRevision
      case Some(s) =>
        if s == PENDIENTE then PendingTone
        else if s == ACEPTADA then AcceptedTone
        else if s == RECHAZADA then RejectedTone
        else PlainTone
      case None => PlainTone
  }

  /** The class string each tone stands for. */
  function ClassName(t: RowTone): string {
    match t
    case AnuladaTone => "bg-red-50 text-red-600 border-l-4 border-red-300"
    case AdminPendingTone => "bg-blue-50"
    case PendingTone => "bg-yellow-50"
    case AcceptedTone => "bg-green-50"
    case RejectedTone => "bg-red-50"
    case PlainTone => ""
  }

  /** The row looks clickable for an employee on a marked row that is not cancelled. */
  predicate ShowsHandCursor(v: Venta, isAdmin: bool) {
    !isAdmin && Truthy(v.estadoRevision) && v.estado != Some(ANULADA)
  }

  /**
   * A click on the row asks to clear its mark: only an employee, only on a
   * marked row, and only when the page passed `onClearRevision`.
   */
  predicate RowClickClears(v: Venta, isAdmin: bool, hasOnClearRevision: bool) {
    !isAdmin && Truthy(v.estadoRevision) && hasOnClearRevision
  }

  /** Each tone has its own class string. */
  lemma ClassNamesDistinct(a: RowTone, b: RowTone)
    requires a != b
    ensures ClassName(a) != ClassName(b)
  {
  }

  /**
   * The hand cursor shows exactly on the rows whose click clears a mark,
   * except a cancelled marked row, whose click clears without the cursor.
   */
  lemma CursorMatchesClick(v: Venta, isAdmin: bool)
    ensures ShowsHandCursor(v, isAdmin) <==> RowClickClears(v, isAdmin, true) && v.estado != Some(ANULADA)
  {
  }

  /** The edit button's label. */
  function EditLabel(v: Venta, isAdmin: bool): (s: string)
    ensures s == "Actualizar" <==> isAdmin && v.estadoRevision == Some(PENDIENTE)
    ensures s != "Actualizar" ==> s == "Editar"
  {
    if isAdmin && v.estadoRevision == Some(PENDIENTE) then "Actualizar" else "Editar"
  }

  /** Which handlers the page passed to the table. */
  datatype Handlers = Handlers(onAnular: bool, onRehabilitar: bool, onDelete: bool)

  /** What the actions cell of a row shows besides the edit button. */
  datatype Acciones = Acciones(anular: bool, badgeAnulada: bool, rehabilitar: bool, eliminar: bool)

  function AccionesOf(v: Venta, isAdmin: bool, h: Handlers): (a: Acciones)
    ensures a.anular ==> v.estado != Some(ANULADA)
    ensures a.rehabilitar ==> isAdmin && v.estado == Some(ANULADA)
    ensures a.eliminar ==> isAdmin
    ensures a.badgeAnulada <==> !isAdmin && v.estado == Some(ANULADA)
    ensures !(a.anular && a.rehabilitar) && !(a.anular && a.badgeAnulada)
    ensures h.onAnular && v.estado != Some(ANULADA) ==> a.anular
    ensures h.onRehabilitar && isAdmin && v.estado == Some(ANULADA) ==> a.rehabilitar
    ensures h.onDelete && isAdmin ==> a.eliminar
    ensures a.anular ==> h.onAnular
    ensures a.rehabilitar ==> h.onRehabilitar
    ensures a.eliminar ==> h.onDelete
  {
    Acciones(
      h.onAnular && v.estado != Some(ANULADA),
      v.estado == Some(ANULADA) && !isAdmin,
      isAdmin && v.estado == Some(ANULADA) && h.onRehabilitar,
      isAdmin && h.onDelete)
  }

  /** Clearing a row's mark makes a further click do nothing and, for an employee, removes its colour. */
  lemma ClearedRowIsInert(v: Venta, hasOnClearRevision: bool)
    requires v.estado != Some(ANULADA)
    ensures !RowClickClears(ClearMark(v), false, hasOnClearRevision)
    ensures RowClass(ClearMark(v), false) == PlainTone
    ensures !ShowsHandCursor(ClearMark(v), false)
  {
  }

  /** After VENTA_ANULADA every matching row is painted as cancelled and offers no "Anular". */
  lemma AnuladaRowsPainted(vs: seq<Venta>, ventaId: Option<string>, isAdmin: bool, h: Handlers)
    requires Truthy(ventaId)
    ensures forall i :: 0 <= i < |vs| && vs[i].id == ventaId.value ==>
      RowClass(VentasSocket.Anulada(vs, ventaId)[i], isAdmin) == AnuladaTone
      && !AccionesOf(VentasSocket.Anulada(vs, ventaId)[i], isAdmin, h).anular
  {
  }
}
