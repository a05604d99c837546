/**
 * The reinstatement dialog. An admin opening it from the table works on a
 * "local" request and reinstates the sale directly (`PUT /ventas/:id` with a
 * null state); otherwise it decides an employee's request
 * (`POST /solicitudes/:id/aprobar` or `/rechazar`).
 */
module RehabilitarModal {
  import opened Base
  import opened Ventas

  /** The one request each button issues. */
  datatype ApiCall =
    | ClearEstado(ventaId: string)
    | PostAprobar(solicitudId: string)
    | PostRechazar(solicitudId: string)

  const NO_ANULADA := "La venta no está anulada"
  const ERROR_APROBAR := "Error aprobando la rehabilitación"
  const ERROR_RECHAZAR := "Error rechazando la rehabilitación"

  /** The validation effect: a local request is never refused; a real one only for a sale that is not ANULADA. */
  function InitialError(local: bool, estado: Option<string>): (e: Option<string>)
    ensures local ==> e.None?
    ensures !local ==> (e.None? <==> estado == Some(ANULADA))
    ensures e.Some? ==> e.value == NO_ANULADA
  {
    if local then None
    else if estado != Some(ANULADA) then Some(NO_ANULADA)
    else None
  }

  /** `aprobarRehabilitacion`'s single request. */
  function ApproveCall(local: bool, ventaId: string, solicitudId: string): (c: ApiCall)
    ensures local <==> c.ClearEstado?
    ensures c.ClearEstado? ==> c.ventaId == ventaId
    ensures !c.ClearEstado? ==> c == PostAprobar(solicitudId)
  {
    if local then ClearEstado(ventaId) else PostAprobar(solicitudId)
  }

  /** The approve button. */
  predicate ApproveDisabled(loading: bool, error: Option<string>) {
    loading || Truthy(error)
  }

  /** The message after a failed call: the server's, else the button's fallback. */
  function FailureMessage(outcome: CallOutcome, fallback: string): (m: string)
    requires fallback != ""
    ensures m != ""
    ensures Truthy(outcome.ServerMessage()) ==> m == outcome.ServerMessage().value
    ensures !Truthy(outcome.ServerMessage()) ==> m == fallback
  {
    MessageOr(outcome.ServerMessage(), fallback)
  }

  class RehabilitarVentaModal {
    const ventaId: string
    const solicitudId: string
    const local: bool
    const ventaEstado: Option<string>
    var loading: bool
    var error: Option<string>
    var calls: seq<ApiCall>
    var confirmed: nat
    var closed: bool

    /** Opening the dialog runs the validation effect. */
    constructor (ventaId: string, solicitudId: string, local: bool, ventaEstado: Option<string>)
      ensures this.ventaId == ventaId && this.solicitudId == solicitudId
      ensures this.local == local && this.ventaEstado == ventaEstado
      ensures error == InitialError(local, ventaEstado)
      ensures !loading && calls == [] && confirmed == 0 && !closed
    {
      this.ventaId := ventaId;
      this.solicitudId := solicitudId;
      this.local := local;
      this.ventaEstado := ventaEstado;
      loading := false;
      error := InitialError(local, ventaEstado);
      calls := [];
      confirmed := 0;
      closed := false;
    }

    /** Approving: exactly one call; success confirms and closes, failure shows a message and stays open. */
    method Aprobar(outcome: CallOutcome)
      modifies this
      ensures calls == old(calls) + [ApproveCall(local, ventaId, solicitudId)]
      ensures outcome.Ok? ==> error.None? && confirmed == old(confirmed) + 1 && closed
      ensures !outcome.Ok? ==> error == Some(FailureMessage(outcome, ERROR_APROBAR))
      ensures !outcome.Ok? ==> confirmed == old(confirmed) && closed == old(closed)
      ensures !loading
    {
      error := None;
      calls := calls + [ApproveCall(local, ventaId, solicitudId)];
      if outcome.Ok? {
        confirmed := confirmed + 1;
        closed := true;
      } else {
        error := Some(FailureMessage(outcome, ERROR_APROBAR));
      }
      loading := false;
    }

    /** Rejecting: one call to `/rechazar`; it closes on success and never confirms. */
    method Rechazar(outcome: CallOutcome)
      modifies this
      ensures calls == old(calls) + [PostRechazar(solicitudId)]
      ensures outcome.Ok? ==> error.None? && closed
      ensures !outcome.Ok? ==> error == Some(FailureMessage(outcome, ERROR_RECHAZAR)) && closed == old(closed)
      ensures confirmed == old(confirmed) && !loading
    {
      error := None;
      calls := calls + [PostRechazar(solicitudId)];
      if outcome.Ok? {
        closed := true;
      } else {
        error := Some(FailureMessage(outcome, ERROR_RECHAZAR));
      }
      loading := false;
    }
  }

  /**
   * The ledger's "Rehabilitar" on a row: the dialog opens on a local request
   * whose id is the sale's own id, so both buttons act on that id.
   */
  method AbrirLocal(venta: Venta) returns (m: RehabilitarVentaModal)
    ensures fresh(m) && m.local && m.ventaId == venta.id && m.solicitudId == venta.id
    ensures m.error.None? && !m.loading && m.calls == [] && m.confirmed == 0 && !m.closed
  {
    m := new RehabilitarVentaModal(venta.id, venta.id, true, venta.estado);
  }

  /** An admin's local reinstatement can always be approved at first; a real request only for an ANULADA sale. */
  lemma ApproveInitiallyEnabled(local: bool, estado: Option<string>)
    ensures !ApproveDisabled(false, InitialError(local, estado)) <==> local || estado == Some(ANULADA)
  {
  }

  /** After a failed approval the approve button stays disabled, whatever the server said. */
  lemma FailureDisablesApprove(outcome: CallOutcome, fallback: string)
    requires fallback != ""
    ensures ApproveDisabled(false, Some(FailureMessage(outcome, fallback)))
  {
  }
}
