/**
 * The cancellation dialog: its form state (date kind, date, reason, "sent to
 * Verti" switch), the validation before sending, the request body, and the
 * handling of the answer, where a 403 means the request was filed for an
 * admin's review and counts as success.
 */
module AnularModal {
  import opened Base
  import opened Strings
  import opened Ventas

  datatype FechaTipo = Vencimiento | Fecha

  /** The request body of `POST /ventas/:id/anular`; `fechaAnulacion` is left out (`None`) unless a date was chosen. */
  datatype AnularPayload = AnularPayload(
    fechaTipo: FechaTipo, fechaAnulacion: Option<string>, motivo: string, derivadoVerti: bool)

  /** The payload of a cancellation request under review; each field may be absent. */
  datatype SolicitudPayload = SolicitudPayload(
    fechaTipo: Option<FechaTipo>, fechaAnulacion: Option<string>, motivo: Option<string>, derivadoVerti: Option<bool>)

  const MOTIVO_OBLIGATORIO := "El motivo es obligatorio."
  const FECHA_OBLIGATORIA := "Debes seleccionar la fecha."
  const ERROR_CONEXION := "Error de conexión"

  /** `validar`: the error it reports, `None` when the form may be sent. */
  function ValidationError(motivo: string, fechaTipo: FechaTipo, fechaAnulacion: string): (e: Option<string>)
    ensures e.None? <==> Trim(motivo) != "" && (fechaTipo == Fecha ==> fechaAnulacion != "")
    ensures Trim(motivo) == "" ==> e == Some(MOTIVO_OBLIGATORIO)
    ensures Trim(motivo) != "" && fechaTipo == Fecha && fechaAnulacion == "" ==> e == Some(FECHA_OBLIGATORIA)
  {
    if Trim(motivo) == "" then Some(MOTIVO_OBLIGATORIO)
    else if fechaTipo == Fecha && fechaAnulacion == "" then Some(FECHA_OBLIGATORIA)
    else None
  }

  /** The body sent: the date only for a dated cancellation, the reason trimmed. */
  function PayloadOf(fechaTipo: FechaTipo, fechaAnulacion: string, motivo: string, derivadoVerti: bool): (p: AnularPayload)
    ensures p.fechaTipo == fechaTipo && p.derivadoVerti == derivadoVerti
    ensures p.fechaAnulacion.Some? <==> fechaTipo == Fecha
    ensures p.fechaAnulacion.Some? ==> p.fechaAnulacion.value == fechaAnulacion
    ensures p.motivo == Trim(motivo)
  {
    AnularPayload(fechaTipo, if fechaTipo == Fecha then Some(fechaAnulacion) else None, Trim(motivo), derivadoVerti)
  }

  /** A payload that passed validation always carries a reason and, when dated, a date. */
  lemma ValidPayloadComplete(fechaTipo: FechaTipo, fechaAnulacion: string, motivo: string, derivadoVerti: bool)
    requires ValidationError(motivo, fechaTipo, fechaAnulacion).None?
    ensures PayloadOf(fechaTipo, fechaAnulacion, motivo, derivadoVerti).motivo != ""
    ensures PayloadOf(fechaTipo, fechaAnulacion, motivo, derivadoVerti).fechaAnulacion != Some("")
    ensures Trim(PayloadOf(fechaTipo, fechaAnulacion, motivo, derivadoVerti).motivo)
      == PayloadOf(fechaTipo, fechaAnulacion, motivo, derivadoVerti).motivo
  {
    TrimIdempotent(motivo);
  }

  /** The dialog reviews a request when it was opened with a non-empty request id. */
  predicate EsRevision(solicitudId: Option<string>) {
    Truthy(solicitudId)
  }

  /** Outside a review, a sale already pending review cannot be cancelled again. */
  predicate HaySolicitudPendiente(solicitudId: Option<string>, estadoRevision: Option<string>) {
    !EsRevision(solicitudId) && estadoRevision == Some(PENDIENTE)
  }

  /** The send button. */
  predicate SendDisabled(loading: bool, solicitudId: Option<string>, estadoRevision: Option<string>) {
    loading || HaySolicitudPendiente(solicitudId, estadoRevision)
  }

  /** The flags: a review never counts as "already pending", and a pending sale blocks sending. */
  lemma FlagsExclusive(solicitudId: Option<string>, estadoRevision: Option<string>, loading: bool)
    ensures HaySolicitudPendiente(solicitudId, estadoRevision) ==> !EsRevision(solicitudId)
    ensures HaySolicitudPendiente(solicitudId, estadoRevision) ==> SendDisabled(loading, solicitudId, estadoRevision)
    ensures !loading && !SendDisabled(loading, solicitudId, estadoRevision) ==>
      EsRevision(solicitudId) || estadoRevision != Some(PENDIENTE)
  {
  }

  /** Success, or a 403 meaning the request now awaits an admin's review. */
  predicate Accepted(outcome: CallOutcome) {
    outcome.Ok? || outcome.IsForbidden()
  }

  /** The message shown after a failed send: the server's, or "Error de conexión". */
  function FailureMessage(outcome: CallOutcome): string {
    MessageOr(outcome.ServerMessage(), ERROR_CONEXION)
  }

  /** What one press of the send button does: the body posted (if any), the error shown, and whether the dialog confirms and closes. */
  datatype Envio = Envio(sent: Option<AnularPayload>, error: Option<string>, confirma: bool)

  /**
   * An invalid form shows its error and posts nothing; otherwise the body is
   * posted once. Success and 403 both confirm and close; any other failure
   * shows the server's message or "Error de conexión" and keeps the dialog open.
   */
  function Enviar(fechaTipo: FechaTipo, fechaAnulacion: string, motivo: string, derivadoVerti: bool, outcome: CallOutcome): (e: Envio)
    ensures e.sent.None? <==> ValidationError(motivo, fechaTipo, fechaAnulacion).Some?
    ensures e.sent.None? ==> e.error == ValidationError(motivo, fechaTipo, fechaAnulacion) && !e.confirma
    ensures e.sent.Some? ==> e.sent.value == PayloadOf(fechaTipo, fechaAnulacion, motivo, derivadoVerti)
    ensures e.sent.Some? ==> (e.confirma <==> Accepted(outcome))
    ensures e.sent.Some? && Accepted(outcome) ==> e.error.None?
    ensures e.sent.Some? && !Accepted(outcome) ==> e.error == Some(FailureMessage(outcome))
  {
    var invalid := ValidationError(motivo, fechaTipo, fechaAnulacion);
    if invalid.Some? then Envio(None, invalid, false)
    else
      var payload := PayloadOf(fechaTipo, fechaAnulacion, motivo, derivadoVerti);
      if Accepted(outcome) then Envio(Some(payload), None, true)
      else Envio(Some(payload), Some(FailureMessage(outcome)), false)
  }

  /** A 403 confirms exactly like a success: the dialog cannot tell a filed request from a done cancellation. */
  lemma ForbiddenLikeOk(fechaTipo: FechaTipo, fechaAnulacion: string, motivo: string, derivadoVerti: bool, message: Option<string>)
    ensures Enviar(fechaTipo, fechaAnulacion, motivo, derivadoVerti, HttpError(403, message))
      == Enviar(fechaTipo, fechaAnulacion, motivo, derivadoVerti, Ok)
  {
  }

  class AnularVentaModal {
    const ventaId: string
    const solicitudId: Option<string>
    const estadoRevision: Option<string>
    var fechaTipo: FechaTipo
    var fechaAnulacion: string
    var motivo: string
    var derivadoVerti: bool
    var loading: bool
    var error: Option<string>
    /** How many times `onConfirm` was called, and whether `onClose` was. */
    var confirmed: nat
    var closed: bool

    constructor (ventaId: string, solicitudId: Option<string>, estadoRevision: Option<string>)
      ensures this.ventaId == ventaId && this.solicitudId == solicitudId && this.estadoRevision == estadoRevision
      ensures fechaTipo == Vencimiento && fechaAnulacion == "" && motivo == "" && !derivadoVerti
      ensures !loading && error.None? && confirmed == 0 && !closed
    {
      this.ventaId := ventaId;
      this.solicitudId := solicitudId;
      this.estadoRevision := estadoRevision;
      fechaTipo := Vencimiento;
      fechaAnulacion := "";
      motivo := "";
      derivadoVerti := false;
      loading := false;
      error := None;
      confirmed := 0;
      closed := false;
    }

    /** The request's payload fills the form; missing fields fall back to the defaults. */
    method LoadPayload(payload: Option<SolicitudPayload>)
      modifies this
      ensures payload.None? ==> fechaTipo == old(fechaTipo) && fechaAnulacion == old(fechaAnulacion)
      ensures payload.None? ==> motivo == old(motivo) && derivadoVerti == old(derivadoVerti)
      ensures payload.Some? ==> motivo == payload.value.motivo.GetOr("")
      ensures payload.Some? ==> fechaTipo == payload.value.fechaTipo.GetOr(Vencimiento)
      ensures payload.Some? ==> fechaAnulacion == payload.value.fechaAnulacion.GetOr("")
      ensures payload.Some? ==> derivadoVerti == payload.value.derivadoVerti.GetOr(false)
      ensures loading == old(loading) && error == old(error)
      ensures confirmed == old(confirmed) && closed == old(closed)
    {
      if payload.None? {
        return;
      }
      var p := payload.value;
      motivo := p.motivo.GetOr("");
      fechaTipo := p.fechaTipo.GetOr(Vencimiento);
      fechaAnulacion := p.fechaAnulacion.GetOr("");
      derivadoVerti := p.derivadoVerti.GetOr(false);
    }

    /** The "Vencimiento" button: the chosen date is discarded. */
    method ChooseVencimiento()
      modifies this
      ensures fechaTipo == Vencimiento && fechaAnulacion == ""
      ensures motivo == old(motivo) && derivadoVerti == old(derivadoVerti)
      ensures loading == old(loading) && error == old(error)
      ensures confirmed == old(confirmed) && closed == old(closed)
    {
      fechaTipo := Vencimiento;
      fechaAnulacion := "";
    }

    /** The "A fecha" button: the date already typed is kept. */
    method ChooseFecha()
      modifies this
      ensures fechaTipo == Fecha && fechaAnulacion == old(fechaAnulacion)
      ensures motivo == old(motivo) && derivadoVerti == old(derivadoVerti)
      ensures loading == old(loading) && error == old(error)
      ensures confirmed == old(confirmed) && closed == old(closed)
    {
      fechaTipo := Fecha;
    }

    /**
     * `enviarAnulacion`: the outcome of `Enviar` on the form as it stands;
     * the form itself is left as it was.
     */
    method EnviarAnulacion(outcome: CallOutcome) returns (sent: Option<AnularPayload>)
      modifies this
      ensures fechaTipo == old(fechaTipo) && fechaAnulacion == old(fechaAnulacion)
      ensures motivo == old(motivo) && derivadoVerti == old(derivadoVerti)
      ensures sent == Enviar(old(fechaTipo), old(fechaAnulacion), old(motivo), old(derivadoVerti), outcome).sent
      ensures error == Enviar(old(fechaTipo), old(fechaAnulacion), old(motivo), old(derivadoVerti), outcome).error
      ensures confirmed == old(confirmed) + (if Enviar(old(fechaTipo), old(fechaAnulacion), old(motivo), old(derivadoVerti), outcome).confirma then 1 else 0)
      ensures closed == (old(closed) || Enviar(old(fechaTipo), old(fechaAnulacion), old(motivo), old(derivadoVerti), outcome).confirma)
      ensures loading == (old(loading) && sent.None?)
    {
      var e := Enviar(fechaTipo, fechaAnulacion, motivo, derivadoVerti, outcome);
      error := e.error;
      sent := e.sent;
      // `loading` is true only while the request is in flight, which a single call does not expose.
      loading := loading && sent.None?;
      confirmed := confirmed + (if e.confirma then 1 else 0);
      closed := closed || e.confirma;
    }
  }

  /** Choosing "Vencimiento" and then sending a valid reason posts no date. */
  lemma VencimientoSendsNoDate(fechaAnulacion: string, motivo: string, derivadoVerti: bool)
    requires Trim(motivo) != ""
    ensures ValidationError(motivo, Vencimiento, fechaAnulacion).None?
    ensures PayloadOf(Vencimiento, fechaAnulacion, motivo, derivadoVerti).fechaAnulacion.None?
  {
  }
}
