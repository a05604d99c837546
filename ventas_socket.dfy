/**
 * The six real-time handlers of the sales ledger. Each one rewrites the
 * loaded sale list; `SOLICITUD_RESUELTA` may also raise the employee's unread
 * revision counter, and the request events reload the admin's request list.
 * Registering appends the six listeners to the socket; the returned cleanup
 * removes exactly those six.
 */
module VentasSocket {
  import opened Base
  import opened Ventas
  import opened SocketBus

  /** VENTA_ACTUALIZADA: the pushed fields are spread over the row with the pushed `_id`. */
  function Actualizada(vs: seq<Venta>, p: VentaPatch): (r: seq<Venta>)
    ensures !Truthy(p.id) ==> r == vs
    ensures |r| == |vs|
    ensures Truthy(p.id) ==> forall i :: 0 <= i < |vs| ==>
      r[i] == if vs[i].id == p.id.value then Spread(vs[i], p) else vs[i]
  {
    if !Truthy(p.id) then vs else MapWhere(vs, p.id.value, v => Spread(v, p))
  }

  /** VENTA_ELIMINADA: every row with the id goes, the others stay in order. */
  function Eliminada(vs: seq<Venta>, ventaId: Option<string>): (r: seq<Venta>)
    ensures !Truthy(ventaId) ==> r == vs
    ensures Truthy(ventaId) ==> r == RemoveId(vs, ventaId.value)
  {
    if !Truthy(ventaId) then vs else RemoveId(vs, ventaId.value)
  }

  function MarkAnulada(v: Venta): Venta {
    v.(estado := Some(ANULADA), estadoRevision := None)
  }

  function MarkRehabilitada(v: Venta): Venta {
    v.(estado := None, estadoRevision := None)
  }

  /** VENTA_ANULADA: the matching row becomes ANULADA with no pending revision. */
  function Anulada(vs: seq<Venta>, ventaId: Option<string>): (r: seq<Venta>)
    ensures |r| == |vs|
    ensures !Truthy(ventaId) ==> r == vs
    ensures forall i :: 0 <= i < |vs| ==>
      if Truthy(ventaId) && vs[i].id == ventaId.value
      then r[i] == vs[i].(estado := Some(ANULADA), estadoRevision := None)
      else r[i] == vs[i]
  {
    if !Truthy(ventaId) then vs else MapWhere(vs, ventaId.value, MarkAnulada)
  }

  /** VENTA_REHABILITADA: the matching row loses its `estado` and its revision. */
  function Rehabilitada(vs: seq<Venta>, ventaId: Option<string>): (r: seq<Venta>)
    ensures |r| == |vs|
    ensures !Truthy(ventaId) ==> r == vs
    ensures forall i :: 0 <= i < |vs| ==>
      if Truthy(ventaId) && vs[i].id == ventaId.value
      then r[i] == vs[i].(estado := None, estadoRevision := None)
      else r[i] == vs[i]
  {
    if !Truthy(ventaId) then vs else MapWhere(vs, ventaId.value, MarkRehabilitada)
  }

  function SetRevision(v: Venta, estado: string): Venta {
    v.(estadoRevision := Some(estado))
  }

  /** SOLICITUD_CREADA: the matching row is marked "pendiente". */
  function Creada(vs: seq<Venta>, ventaId: Option<string>): (r: seq<Venta>)
    ensures |r| == |vs|
    ensures forall i :: 0 <= i < |vs| ==>
      if Truthy(ventaId) && vs[i].id == ventaId.value
      then r[i] == vs[i].(estadoRevision := Some(PENDIENTE))
      else r[i] == vs[i]
  {
    if !Truthy(ventaId) then vs else MapWhere(vs, ventaId.value, v => SetRevision(v, PENDIENTE))
  }

  /** SOLICITUD_RESUELTA: with both an id and an outcome, the matching row takes the outcome. */
  function Resuelta(vs: seq<Venta>, ventaId: Option<string>, estado: Option<string>): (r: seq<Venta>)
    ensures |r| == |vs|
    ensures !Truthy(ventaId) || !Truthy(estado) ==> r == vs
    ensures forall i :: 0 <= i < |vs| ==>
      if Truthy(ventaId) && Truthy(estado) && vs[i].id == ventaId.value
      then r[i] == vs[i].(estadoRevision := estado)
      else r[i] == vs[i]
  {
    if !Truthy(ventaId) || !Truthy(estado) then vs
    else MapWhere(vs, ventaId.value, v => SetRevision(v, estado.value))
  }

  /** How much SOLICITUD_RESUELTA adds to the unread revision counter. */
  function RevisionIncrement(isAdmin: bool, ventaId: Option<string>, estado: Option<string>): (n: nat)
    ensures n <= 1
    ensures n == 1 <==>
      !isAdmin && Truthy(ventaId) && Truthy(estado) && (estado.value == ACEPTADA || estado.value == RECHAZADA)
  {
    if !Truthy(ventaId) || !Truthy(estado) then 0
    else if isAdmin then 0
    else if estado.value == ACEPTADA || estado.value == RECHAZADA then 1
    else 0
  }

  /** Announcing a cancellation twice is the same as announcing it once. */
  lemma AnuladaIdempotent(vs: seq<Venta>, ventaId: Option<string>)
    ensures Anulada(Anulada(vs, ventaId), ventaId) == Anulada(vs, ventaId)
  {
    var once := Anulada(vs, ventaId);
    var twice := Anulada(once, ventaId);
    assert forall i :: 0 <= i < |vs| ==> twice[i] == once[i];
  }

  /** Reinstating a sale undoes a cancellation of a sale that had no `estado`. */
  lemma RehabilitadaUndoesAnulada(vs: seq<Venta>, ventaId: Option<string>)
    requires forall i :: 0 <= i < |vs| ==> vs[i].estado.None?
    ensures Rehabilitada(Anulada(vs, ventaId), ventaId) == Rehabilitada(vs, ventaId)
  {
    var a := Anulada(vs, ventaId);
    var left := Rehabilitada(a, ventaId);
    var right := Rehabilitada(vs, ventaId);
    assert forall i :: 0 <= i < |vs| ==> left[i] == right[i];
  }

  /** A deleted sale cannot be brought back by a later update for the same id. */
  lemma ActualizadaAfterEliminada(vs: seq<Venta>, p: VentaPatch)
    requires Truthy(p.id)
    ensures Actualizada(Eliminada(vs, p.id), p) == Eliminada(vs, p.id)
  {
    var e := Eliminada(vs, p.id);
    var u := Actualizada(e, p);
    assert forall i :: 0 <= i < |e| ==> u[i] == e[i];
  }

  /** The six event names, in registration order. */
  const EVENTS: seq<string> := [
    "VENTA_ACTUALIZADA", "VENTA_ELIMINADA", "VENTA_ANULADA",
    "VENTA_REHABILITADA", "SOLICITUD_CREADA", "SOLICITUD_RESUELTA"]

  /** The listeners one registration adds; `owner` identifies that registration's closures. */
  function Handlers(owner: nat): (hs: seq<Listener>)
    ensures |hs| == 6
    ensures forall i :: 0 <= i < 6 ==> hs[i] == Listener(EVENTS[i], owner)
  {
    seq(6, i requires 0 <= i < 6 => Listener(EVENTS[i], owner))
  }

  /** Register, then clean up: a socket whose listeners came from other registrations is back where it was. */
  lemma RegisterThenCleanup(ls: seq<Listener>, owner: nat)
    requires forall i :: 0 <= i < |ls| ==> ls[i].owner != owner
    ensures RemoveEach(ls + Handlers(owner), Handlers(owner)) == ls
  {
    var hs := Handlers(owner);
    RemoveEachAppended(ls, hs);
  }

  /** The ledger state the handlers update. */
  class LedgerState {
    const isAdmin: bool
    var ventas: seq<Venta>
    var revisionCount: int
    /** How many times the admin's request list has been reloaded. */
    var solicitudesReloads: nat

    constructor (isAdmin: bool, ventas: seq<Venta>, revisionCount: int)
      ensures this.isAdmin == isAdmin && this.ventas == ventas
      ensures this.revisionCount == revisionCount && solicitudesReloads == 0
    {
      this.isAdmin := isAdmin;
      this.ventas := ventas;
      this.revisionCount := revisionCount;
      solicitudesReloads := 0;
    }

    method OnVentaActualizada(p: VentaPatch)
      modifies this
      ensures ventas == Actualizada(old(ventas), p)
      ensures revisionCount == old(revisionCount) && solicitudesReloads == old(solicitudesReloads)
    {
      if !Truthy(p.id) {
        return;
      }
      ventas := Actualizada(ventas, p);
    }

    method OnVentaEliminada(ventaId: Option<string>)
      modifies this
      ensures ventas == Eliminada(old(ventas), ventaId)
      ensures revisionCount == old(revisionCount) && solicitudesReloads == old(solicitudesReloads)
    {
      if !Truthy(ventaId) {
        return;
      }
      ventas := Eliminada(ventas, ventaId);
    }

    method OnVentaAnulada(ventaId: Option<string>)
      modifies this
      ensures ventas == Anulada(old(ventas), ventaId)
      ensures revisionCount == old(revisionCount) && solicitudesReloads == old(solicitudesReloads)
    {
      if !Truthy(ventaId) {
        return;
      }
      ventas := Anulada(ventas, ventaId);
    }

    method OnVentaRehabilitada(ventaId: Option<string>)
      modifies this
      ensures ventas == Rehabilitada(old(ventas), ventaId)
      ensures revisionCount == old(revisionCount) && solicitudesReloads == old(solicitudesReloads)
    {
      if !Truthy(ventaId) {
        return;
      }
      ventas := Rehabilitada(ventas, ventaId);
    }

    /** Never touches the counter; an admin reloads the request list. */
    method OnSolicitudCreada(ventaId: Option<string>)
      modifies this
      ensures ventas == Creada(old(ventas), ventaId)
      ensures revisionCount == old(revisionCount)
      ensures solicitudesReloads == old(solicitudesReloads) + (if Truthy(ventaId) && isAdmin then 1 else 0)
    {
      if !Truthy(ventaId) {
        return;
      }
      ventas := Creada(ventas, ventaId);
      if isAdmin {
        solicitudesReloads := solicitudesReloads + 1;
      }
    }

    /** An admin reloads the request list; an employee counts an accepted or rejected request. */
    method OnSolicitudResuelta(ventaId: Option<string>, estado: Option<string>)
      modifies this
      ensures ventas == Resuelta(old(ventas), ventaId, estado)
      ensures revisionCount == old(revisionCount) + RevisionIncrement(isAdmin, ventaId, estado)
      ensures solicitudesReloads ==
        old(solicitudesReloads) + (if Truthy(ventaId) && Truthy(estado) && isAdmin then 1 else 0)
    {
      if !Truthy(ventaId) || !Truthy(estado) {
        return;
      }
      ventas := Resuelta(ventas, ventaId, estado);
      if isAdmin {
        solicitudesReloads := solicitudesReloads + 1;
      } else {
        if estado.value == ACEPTADA || estado.value == RECHAZADA {
          revisionCount := revisionCount + 1;
        }
      }
    }
  }

  /** `registerVentasSocketHandlers`: the six `socket.on` calls. */
  method Register(socket: Socket, owner: nat)
    modifies socket
    ensures socket.listeners == old(socket.listeners) + Handlers(owner)
  {
    var hs := Handlers(owner);
    var i := 0;
    while i < 6
      invariant 0 <= i <= 6
      invariant socket.listeners == old(socket.listeners) + hs[..i]
    {
      socket.On(hs[i]);
      assert hs[..i + 1] == hs[..i] + [hs[i]];
      i := i + 1;
    }
    assert hs[..6] == hs;
  }

  /** The cleanup returned by the registration: `socket.off(event, handler)` for each of the six. */
  method Cleanup(socket: Socket, owner: nat)
    modifies socket
    ensures socket.listeners == RemoveEach(old(socket.listeners), Handlers(owner))
  {
    var hs := Handlers(owner);
    var i := 0;
    while i < 6
      invariant 0 <= i <= 6
      invariant RemoveEach(socket.listeners, hs[i..]) == RemoveEach(old(socket.listeners), hs)
    {
      assert hs[i..][1..] == hs[i + 1..];
      socket.Off(hs[i]);
      i := i + 1;
    }
  }
}
