/**
 * The CRM's new-sale page: a form of text inputs, the "historical sale"
 * switch (which wipes the creation date when turned off), and the request
 * body `handleSubmit` builds, where the assigned user and the creation date
 * are sent only by an admin and only when filled in.
 */
module NuevaVenta {
  import opened Base
  import opened Strings
  import opened JsNumber

  /** The form's inputs, each held as the text typed. */
  datatype Form = Form(
    fechaEfecto: string, aseguradora: string, ramo: string, numeroPoliza: string,
    documentoFiscal: string, tomador: string, primaNeta: string, formaPago: string,
    actividad: string, observaciones: string, createdBy: string, createdAt: string)

  const EMPTY_FORM := Form("", "", "", "", "", "", "", "", "", "", "", "")

  datatype Field =
    | FechaEfecto | Aseguradora | Ramo | NumeroPoliza | DocumentoFiscal | Tomador
    | PrimaNeta | FormaPago | Actividad | Observaciones | CreatedBy | CreatedAt

  /** `form[name]`. */
  function Get(form: Form, f: Field): string {
    match f
    case FechaEfecto => form.fechaEfecto
    case Aseguradora => form.aseguradora
    case Ramo => form.ramo
    case NumeroPoliza => form.numeroPoliza
    case DocumentoFiscal => form.documentoFiscal
    case Tomador => form.tomador
    case PrimaNeta => form.primaNeta
    case FormaPago => form.formaPago
    case Actividad => form.actividad
    case Observaciones => form.observaciones
    case CreatedBy => form.createdBy
    case CreatedAt => form.createdAt
  }

  /** `{ ...form, [name]: value }`: one field replaced, the others kept. */
  function With(form: Form, f: Field, value: string): (r: Form)
    ensures Get(r, f) == value
    ensures forall g: Field :: g != f ==> Get(r, g) == Get(form, g)
  {
    match f
    case FechaEfecto => form.(fechaEfecto := value)
    case Aseguradora => form.(aseguradora := value)
    case Ramo => form.(ramo := value)
    case NumeroPoliza => form.(numeroPoliza := value)
    case DocumentoFiscal => form.(documentoFiscal := value)
    case Tomador => form.(tomador := value)
    case PrimaNeta => form.(primaNeta := value)
    case FormaPago => form.(formaPago := value)
    case Actividad => form.(actividad := value)
    case Observaciones => form.(observaciones := value)
    case CreatedBy => form.(createdBy := value)
    case CreatedAt => form.(createdAt := value)
  }

  /** The body of `POST /ventas`; `primaNeta` is `Number(...)` in hundredths, `None` for NaN. */
  datatype Payload = Payload(
    fechaEfecto: string, aseguradora: string, ramo: string, numeroPoliza: string,
    documentoFiscal: string, tomador: string, primaNeta: Option<int>, formaPago: string,
    actividad: string, observaciones: string, createdBy: Option<string>, createdAt: Option<string>)

  /** `handleSubmit`'s payload. */
  function PayloadOf(isAdmin: bool, historica: bool, form: Form): (p: Payload)
    ensures p.fechaEfecto == form.fechaEfecto && p.aseguradora == form.aseguradora
    ensures p.ramo == form.ramo && p.numeroPoliza == form.numeroPoliza
    ensures p.documentoFiscal == form.documentoFiscal && p.tomador == form.tomador
    ensures p.formaPago == form.formaPago && p.actividad == form.actividad
    ensures p.observaciones == form.observaciones
    ensures p.primaNeta == Number(form.primaNeta)
    ensures p.createdBy.Some? <==> isAdmin && form.createdBy != ""
    ensures p.createdBy.Some? ==> p.createdBy.value == form.createdBy
    ensures p.createdAt.Some? <==> isAdmin && historica && form.createdAt != ""
    ensures p.createdAt.Some? ==> p.createdAt.value == form.createdAt
  {
    Payload(
      form.fechaEfecto, form.aseguradora, form.ramo, form.numeroPoliza,
      form.documentoFiscal, form.tomador, Number(form.primaNeta), form.formaPago,
      form.actividad, form.observaciones,
      if isAdmin && form.createdBy != "" then Some(form.createdBy) else None,
      if isAdmin && historica && form.createdAt != "" then Some(form.createdAt) else None)
  }

  /** An employee's request never names a user or a creation date, whatever the form holds. */
  lemma EmployeePayloadPlain(historica: bool, form: Form)
    ensures PayloadOf(false, historica, form).createdBy.None?
    ensures PayloadOf(false, historica, form).createdAt.None?
  {
  }

  /** A premium typed as an amount with at most two decimals reaches the server unchanged; an empty one as 0. */
  lemma PayloadPrima(isAdmin: bool, historica: bool, form: Form, cents: int)
    ensures form.primaNeta == CentsToString(cents) ==> PayloadOf(isAdmin, historica, form).primaNeta == Some(cents)
    ensures form.primaNeta == "" ==> PayloadOf(isAdmin, historica, form).primaNeta == Some(0)
  {
    NumberOfCentsString(cents);
  }

  const ERROR_GUARDAR := "Error inesperado al guardar la venta"
  const LIBRO_VENTAS := "/crm/libro-ventas"

  class NuevaVentaPage {
    const isAdmin: bool
    var form: Form
    var ventaHistorica: bool
    var error: Option<string>
    var showSuccess: bool
    /** The bodies posted so far. */
    var posted: seq<Payload>
    /** Where the page has navigated to, if anywhere. */
    var destino: Option<string>

    constructor (isAdmin: bool)
      ensures this.isAdmin == isAdmin && form == EMPTY_FORM && !ventaHistorica
      ensures error.None? && !showSuccess && posted == [] && destino.None?
    {
      this.isAdmin := isAdmin;
      form := EMPTY_FORM;
      ventaHistorica := false;
      error := None;
      showSuccess := false;
      posted := [];
      destino := None;
    }

    /** `handleChange`. */
    method HandleChange(f: Field, value: string)
      modifies this
      ensures form == With(old(form), f, value)
      ensures ventaHistorica == old(ventaHistorica) && error == old(error)
      ensures showSuccess == old(showSuccess) && posted == old(posted) && destino == old(destino)
    {
      form := With(form, f, value);
    }

    /** The switch, followed by its effect: turning it off wipes the creation date. */
    method SetHistorica(on: bool)
      modifies this
      ensures ventaHistorica == on
      ensures on ==> form == old(form)
      ensures !on ==> form == old(form).(createdAt := "")
      ensures error == old(error) && showSuccess == old(showSuccess) && posted == old(posted)
      ensures destino == old(destino)
    {
      ventaHistorica := on;
      if !on {
        form := form.(createdAt := "");
      }
    }

    /** `handleSubmit`: posts the payload; success opens the success modal, failure shows a message. */
    method HandleSubmit(outcome: CallOutcome)
      modifies this
      ensures posted == old(posted) + [PayloadOf(isAdmin, old(ventaHistorica), old(form))]
      ensures outcome.Ok? ==> showSuccess && error.None?
      ensures !outcome.Ok? ==> showSuccess == old(showSuccess)
      ensures outcome.Ok? ==> SubmitDisabled(showSuccess)
      ensures old(SubmitDisabled(showSuccess)) ==> SubmitDisabled(showSuccess)
      ensures !outcome.Ok? ==> error == Some(MessageOr(outcome.ServerMessage(), ERROR_GUARDAR))
      ensures form == old(form) && ventaHistorica == old(ventaHistorica) && destino == old(destino)
    {
      var payload := PayloadOf(isAdmin, ventaHistorica, form);
      posted := posted + [payload];
      error := if outcome.Ok? then None else Some(MessageOr(outcome.ServerMessage(), ERROR_GUARDAR));
      showSuccess := showSuccess || outcome.Ok?;
    }

    /** The success modal's "OK": the modal closes and the page goes to the ledger. */
    method CerrarExito()
      requires showSuccess
      modifies this
      ensures !showSuccess && !SubmitDisabled(showSuccess)
      ensures destino == Some(LIBRO_VENTAS)
      ensures form == old(form) && ventaHistorica == old(ventaHistorica)
      ensures error == old(error) && posted == old(posted)
    {
      showSuccess := false;
      destino := Some(LIBRO_VENTAS);
    }
  }

  /** The submit button. */
  predicate SubmitDisabled(showSuccess: bool) { showSuccess }

  /** A creation date typed and then abandoned by turning the switch off is never sent. */
  lemma SwitchOffDropsCreatedAt(isAdmin: bool, form: Form)
    ensures PayloadOf(isAdmin, false, form.(createdAt := "")).createdAt.None?
    ensures PayloadOf(isAdmin, true, form.(createdAt := "")).createdAt.None?
  {
  }
}
