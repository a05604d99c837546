/**
 * The sale record shared by the ledger pages, the table and the real-time
 * handlers, and the two list operations every one of them applies to the
 * loaded list: rewrite the rows with a given `_id`, or drop them.
 *
 * The premium is held in integer cents. `estado` is either absent or
 * "ANULADA"; `estadoRevision` is absent/null or one of "pendiente",
 * "aceptada", "rechazada".
 */
module Ventas {
  import opened Base
  import opened Seqs

  const ANULADA := "ANULADA"
  const PENDIENTE := "pendiente"
  const ACEPTADA := "aceptada"
  const RECHAZADA := "rechazada"

  datatype Venta = Venta(
    id: string,
    fechaEfecto: string,
    numeroPoliza: string,
    tomador: string,
    aseguradora: string,
    ramo: string,
    primaNeta: int,
    createdBy: Option<string>,
    estado: Option<string>,
    estadoRevision: Option<string>)

  /**
   * A partial sale pushed by the server: each field is absent (`None`) or
   * carries the value to write, which for the nullable fields may itself be
   * null (`Some(None)`).
   */
  datatype VentaPatch = VentaPatch(
    id: Option<string>,
    fechaEfecto: Option<string>,
    numeroPoliza: Option<string>,
    tomador: Option<string>,
    aseguradora: Option<string>,
    ramo: Option<string>,
    primaNeta: Option<int>,
    createdBy: Option<Option<string>>,
    estado: Option<Option<string>>,
    estadoRevision: Option<Option<string>>)

  /** `{ ...v, ...patch }`: the fields the patch carries win. */
  function Spread(v: Venta, p: VentaPatch): (r: Venta)
    ensures (p.id.Some? ==> r.id == p.id.value) && (p.id.None? ==> r.id == v.id)
    ensures (p.fechaEfecto.Some? ==> r.fechaEfecto == p.fechaEfecto.value) && (p.fechaEfecto.None? ==> r.fechaEfecto == v.fechaEfecto)
    ensures (p.numeroPoliza.Some? ==> r.numeroPoliza == p.numeroPoliza.value) && (p.numeroPoliza.None? ==> r.numeroPoliza == v.numeroPoliza)
    ensures (p.tomador.Some? ==> r.tomador == p.tomador.value) && (p.tomador.None? ==> r.tomador == v.tomador)
    ensures (p.aseguradora.Some? ==> r.aseguradora == p.aseguradora.value) && (p.aseguradora.None? ==> r.aseguradora == v.aseguradora)
    ensures (p.ramo.Some? ==> r.ramo == p.ramo.value) && (p.ramo.None? ==> r.ramo == v.ramo)
    ensures (p.primaNeta.Some? ==> r.primaNeta == p.primaNeta.value) && (p.primaNeta.None? ==> r.primaNeta == v.primaNeta)
    ensures (p.createdBy.Some? ==> r.createdBy == p.createdBy.value) && (p.createdBy.None? ==> r.createdBy == v.createdBy)
    ensures (p.estado.Some? ==> r.estado == p.estado.value) && (p.estado.None? ==> r.estado == v.estado)
    ensures (p.estadoRevision.Some? ==> r.estadoRevision == p.estadoRevision.value) && (p.estadoRevision.None? ==> r.estadoRevision == v.estadoRevision)
  {
    Venta(
      p.id.GetOr(v.id),
      p.fechaEfecto.GetOr(v.fechaEfecto),
      p.numeroPoliza.GetOr(v.numeroPoliza),
      p.tomador.GetOr(v.tomador),
      p.aseguradora.GetOr(v.aseguradora),
      p.ramo.GetOr(v.ramo),
      p.primaNeta.GetOr(v.primaNeta),
      p.createdBy.GetOr(v.createdBy),
      p.estado.GetOr(v.estado),
      p.estadoRevision.GetOr(v.estadoRevision))
  }

  /** The empty patch `{}` leaves a row as it was. */
  lemma SpreadEmpty(v: Venta)
    ensures Spread(v, VentaPatch(None, None, None, None, None, None, None, None, None, None)) == v
  {
  }

  /** The same patch delivered twice leaves the row as the first delivery did. */
  lemma SpreadIdempotent(v: Venta, p: VentaPatch)
    ensures Spread(Spread(v, p), p) == Spread(v, p)
  {
  }

  /** `{ ...v, estadoRevision: null }`: the revision mark is cleared. */
  function ClearMark(v: Venta): Venta {
    v.(estadoRevision := None)
  }

  /**
   * `vs.map(v => v._id === id ? f(v) : v)`: the rows with that id are
   * rewritten by `f`, every other row is left as it was, in place.
   */
  function MapWhere(vs: seq<Venta>, id: string, f: Venta -> Venta): (r: seq<Venta>)
    ensures |r| == |vs|
    ensures forall i :: 0 <= i < |vs| && vs[i].id == id ==> r[i] == f(vs[i])
    ensures forall i :: 0 <= i < |vs| && vs[i].id != id ==> r[i] == vs[i]
  {
    if vs == [] then []
    else
      var rest := MapWhere(vs[..|vs| - 1], id, f);
      var last := vs[|vs| - 1];
      rest + [if last.id == id then f(last) else last]
  }

  /** `vs.filter(v => v._id !== id)`. */
  function RemoveId(vs: seq<Venta>, id: string): (r: seq<Venta>)
    ensures forall i :: 0 <= i < |r| ==> r[i].id != id && r[i] in vs
    ensures forall i :: 0 <= i < |vs| && vs[i].id != id ==> vs[i] in r
  {
    Filter(vs, (v: Venta) => v.id != id)
  }

  /** Removal keeps the surviving rows in their order: it distributes over concatenation. */
  lemma RemoveIdAppend(a: seq<Venta>, b: seq<Venta>, id: string)
    ensures RemoveId(a + b, id) == RemoveId(a, id) + RemoveId(b, id)
  {
    FilterAppend(a, b, (v: Venta) => v.id != id);
  }

  /** Removing an id that no row carries changes nothing. */
  lemma RemoveIdAbsent(vs: seq<Venta>, id: string)
    requires forall i :: 0 <= i < |vs| ==> vs[i].id != id
    ensures RemoveId(vs, id) == vs
  {
    FilterKeepsAll(vs, (v: Venta) => v.id != id);
  }

  /** Exactly the rows carrying the id go. */
  lemma RemoveIdLength(vs: seq<Venta>, id: string)
    ensures |RemoveId(vs, id)| == |vs| - Count(vs, (v: Venta) => v.id == id)
  {
    FilterLength(vs, (v: Venta) => v.id != id);
    CountComplement(vs, (v: Venta) => v.id != id, (v: Venta) => v.id == id);
  }

  lemma {:induction false} CountComplement<T>(s: seq<T>, p: T -> bool, q: T -> bool)
    requires forall x :: q(x) == !p(x)
    ensures Count(s, p) + Count(s, q) == |s|
  {
    if s != [] {
      CountComplement(s[..|s| - 1], p, q);
    }
  }
}
