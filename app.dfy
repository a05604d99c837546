/**
 * The application shell: the two socket handlers that act on the browser's
 * storage (a resolved request drops the pending-sale markers; a forced
 * logout marks the shift as closed and goes to the clock-in page), the
 * cleanup of its four listeners, and the route table with its catch-all
 * redirect. Every route but the login page sits behind the guard of
 * `AuthGuard`.
 */
module App {
  import opened Base
  import opened Strings
  import opened Storage
  import opened SocketBus
  import opened Session
  import AuthGuard

  // ---------------------------------------------------------------- storage handlers

  const PENDING_PREFIX := "venta_pending_"

  /** The marker key of one pending sale. */
  function PendingKey(ventaId: string): (k: string)
    ensures StartsWith(k, PENDING_PREFIX)
    ensures k[|PENDING_PREFIX|..] == ventaId
  {
    PENDING_PREFIX + ventaId
  }

  /** Different sales have different marker keys. */
  lemma PendingKeyInjective(a: string, b: string)
    requires PendingKey(a) == PendingKey(b)
    ensures a == b
  {
    assert PendingKey(a)[|PENDING_PREFIX|..] == PendingKey(b)[|PENDING_PREFIX|..];
  }

  /** The storage without any pending-sale marker; every other entry is kept as it was. */
  function SinPendientes(items: map<string, string>): (r: map<string, string>)
    ensures forall k :: k in r <==> k in items && !StartsWith(k, PENDING_PREFIX)
    ensures forall k :: k in r ==> r[k] == items[k]
  {
    map k | k in items && !StartsWith(k, PENDING_PREFIX) :: items[k]
  }

  /** Dropping the markers twice is dropping them once. */
  lemma SinPendientesIdempotent(items: map<string, string>)
    ensures SinPendientes(SinPendientes(items)) == SinPendientes(items)
  {
    var once := SinPendientes(items);
    var twice := SinPendientes(once);
    assert forall k :: k in twice <==> k in once;
  }

  /** Dropping one sale's marker first and then all markers is dropping all markers. */
  lemma SinPendientesAbsorbe(items: map<string, string>, ventaId: string)
    ensures SinPendientes(items - {PendingKey(ventaId)}) == SinPendientes(items)
  {
    var a := SinPendientes(items - {PendingKey(ventaId)});
    var b := SinPendientes(items);
    assert forall k :: k in a <==> k in b;
  }

  /**
   * `SOLICITUD_RESUELTA`: with a sale id only that sale's marker goes;
   * without one, every key of a snapshot of the storage's keys that carries
   * the marker prefix is removed.
   */
  method OnSolicitudResuelta(storage: LocalStorage, ventaId: Option<string>, claves: seq<string>)
    requires forall k :: k in claves <==> k in storage.items
    modifies storage
    ensures Truthy(ventaId) ==> storage.items == old(storage.items) - {PendingKey(ventaId.value)}
    ensures !Truthy(ventaId) ==> storage.items == SinPendientes(old(storage.items))
  {
    if Truthy(ventaId) {
      storage.RemoveItem(PendingKey(ventaId.value));
      return;
    }
    ghost var inicial := storage.items;
    for i := 0 to |claves|
      invariant forall k :: k in storage.items <==>
        k in inicial && !(k in claves[..i] && StartsWith(k, PENDING_PREFIX))
      invariant forall k :: k in storage.items ==> storage.items[k] == inicial[k]
    {
      assert claves[..i + 1] == claves[..i] + [claves[i]];
      if StartsWith(claves[i], PENDING_PREFIX) {
        storage.RemoveItem(claves[i]);
      }
    }
    assert claves[..|claves|] == claves;
    assert forall k :: k in storage.items <==> k in SinPendientes(inicial);
  }

  const JORNADA_CERRADA := AuthGuard.JORNADA_CERRADA

  /** `FORCE_LOGOUT`: marks the shift as closed and returns where the app navigates. */
  method OnForceLogout(storage: LocalStorage) returns (destino: string)
    modifies storage
    ensures storage.items == old(storage.items)[JORNADA_CERRADA := "1"]
    ensures destino == CONTROL_HORARIO
  {
    storage.SetItem(JORNADA_CERRADA, "1");
    destino := CONTROL_HORARIO;
  }

  /** After a forced logout the CRM firewall turns an employee away from every CRM path, until the marker is removed. */
  lemma ForceLogoutCierraCrm(items: map<string, string>, movil: bool, path: string, adminOnly: bool, enJornada: bool)
    requires Authenticated(items) && StartsWith(path, AuthGuard.CRM_PREFIX)
    ensures AuthGuard.Decision(items[JORNADA_CERRADA := "1"], Some(Usuario(Some(EMPLEADO))), movil, path, adminOnly, false, enJornada)
      == Redirect(CONTROL_HORARIO)
  {
    var after := items[JORNADA_CERRADA := "1"];
    assert Item(after, TOKEN) == Item(items, TOKEN);
    assert Item(after, USER) == Item(items, USER);
    assert AuthGuard.Cerrada(after);
  }

  // ---------------------------------------------------------------- socket listeners

  /** The four events the shell listens to, in registration order. */
  const EVENTOS: seq<string> := ["connect", "connect_error", "SOLICITUD_RESUELTA", "FORCE_LOGOUT"]

  /** The listeners one mount of the shell adds. */
  function Listeners(owner: nat): (ls: seq<Listener>)
    ensures |ls| == |EVENTOS|
    ensures forall i :: 0 <= i < |ls| ==> ls[i] == Listener(EVENTOS[i], owner)
    ensures forall i :: 0 <= i < |ls| ==> ls[i].event in EVENTOS
  {
    [Listener(EVENTOS[0], owner), Listener(EVENTOS[1], owner), Listener(EVENTOS[2], owner), Listener(EVENTOS[3], owner)]
  }

  /** The effect: the four `socket.on` calls. */
  method Registrar(socket: Socket, owner: nat)
    modifies socket
    ensures socket.listeners == old(socket.listeners) + Listeners(owner)
  {
    var ls := Listeners(owner);
    for i := 0 to |ls|
      invariant socket.listeners == old(socket.listeners) + ls[..i]
    {
      socket.On(ls[i]);
      assert ls[..i + 1] == ls[..i] + [ls[i]];
    }
    assert ls[..|ls|] == ls;
  }

  /**
   * `getSocket()` hands out a socket only when the stored user parses and a
   * token is stored; otherwise it returns `null`.
   */
  predicate HaySocket(items: map<string, string>, parsedUser: Option<Usuario>) {
    Truthy(Item(items, USER)) && parsedUser.Some? && Truthy(Item(items, TOKEN))
  }

  /** How the shell's mount effect ends: its listeners registered, or the effect throws. */
  datatype Montaje = Registrado | Lanza

  /**
   * The mount effect as written: `getSocket()` and then `socket.on(...)`
   * with no null test, so without a session the first `on` throws and
   * nothing is registered (and no cleanup is returned). `socket` is the
   * shared socket `getSocket()` would hand out.
   */
  method Montar(items: map<string, string>, parsedUser: Option<Usuario>, socket: Socket, owner: nat)
    returns (m: Montaje)
    modifies socket
    ensures m == Registrado <==> HaySocket(items, parsedUser)
    ensures !Authenticated(items) ==> m == Lanza
    ensures m == Registrado ==> socket.listeners == old(socket.listeners) + Listeners(owner)
    ensures m == Lanza ==> socket.listeners == old(socket.listeners)
  {
    if !HaySocket(items, parsedUser) {
      return Lanza;
    }
    Registrar(socket, owner);
    return Registrado;
  }

  /** The effect's cleanup: `socket.off(event)` without a handler, for each of the four events. */
  method Limpiar(socket: Socket)
    modifies socket
    ensures socket.listeners == RemoveEvents(old(socket.listeners), EVENTOS)
  {
    for i := 0 to |EVENTOS|
      invariant RemoveEvents(socket.listeners, EVENTOS[i..]) == RemoveEvents(old(socket.listeners), EVENTOS)
    {
      assert EVENTOS[i..][1..] == EVENTOS[i + 1..];
      socket.OffEvent(EVENTOS[i]);
    }
  }

  /** What removing several events keeps: exactly the listeners of the other events, in order. */
  lemma {:induction false} RemoveEventsKeeps(ls: seq<Listener>, events: seq<string>)
    ensures forall l :: l in RemoveEvents(ls, events) ==> l in ls && l.event !in events
    ensures forall l :: l in ls && l.event !in events ==> l in RemoveEvents(ls, events)
    decreases |events|
  {
    if events != [] {
      RemoveEventsKeeps(RemoveEvent(ls, events[0]), events[1..]);
      assert forall e :: e in events <==> e == events[0] || e in events[1..];
    }
  }

  /** Removing events from a list that has none of them changes nothing. */
  lemma {:induction false} RemoveEventsAbsent(ls: seq<Listener>, events: seq<string>)
    requires forall i :: 0 <= i < |ls| ==> ls[i].event !in events
    ensures RemoveEvents(ls, events) == ls
    decreases |events|
  {
    if events != [] {
      RemoveEventAbsent(ls, events[0]);
      RemoveEventsAbsent(ls, events[1..]);
    }
  }

  lemma {:induction false} RemoveEventAbsent(ls: seq<Listener>, event: string)
    requires forall i :: 0 <= i < |ls| ==> ls[i].event != event
    ensures RemoveEvent(ls, event) == ls
  {
    if ls != [] {
      RemoveEventAbsent(ls[1..], event);
      assert ls == [ls[0]] + ls[1..];
    }
  }

  /**
   * Mount then cleanup: listeners of other events stay, and no listener of
   * the four events is left, including those another component registered
   * for the same event names.
   */
  lemma MontarDesmontar(ls: seq<Listener>, owner: nat)
    ensures forall l :: l in RemoveEvents(ls + Listeners(owner), EVENTOS) <==> l in ls && l.event !in EVENTOS
  {
    RemoveEventsKeeps(ls + Listeners(owner), EVENTOS);
  }

  /** When nobody else listens to the four events, mount then cleanup restores the listener list exactly. */
  lemma MontarDesmontarRestaura(ls: seq<Listener>, owner: nat)
    requires forall i :: 0 <= i < |ls| ==> ls[i].event !in EVENTOS
    ensures RemoveEvents(ls + Listeners(owner), EVENTOS) == ls
  {
    RemoveAppended(ls, Listeners(owner), EVENTOS);
  }

  /** Removing the events of the appended listeners, which nothing before them has, gives back the list before them. */
  lemma RemoveAppended(a: seq<Listener>, b: seq<Listener>, events: seq<string>)
    requires forall i :: 0 <= i < |a| ==> a[i].event !in events
    requires forall i :: 0 <= i < |b| ==> b[i].event in events
    ensures RemoveEvents(a + b, events) == a
  {
    RemoveEventsAppend(a, b, events);
    RemoveEventsAbsent(a, events);
    RemoveEventsAll(b, events);
    assert a + [] == a;
  }

  /** Removing events distributes over concatenation. */
  lemma {:induction false} RemoveEventsAppend(a: seq<Listener>, b: seq<Listener>, events: seq<string>)
    ensures RemoveEvents(a + b, events) == RemoveEvents(a, events) + RemoveEvents(b, events)
    decreases |events|
  {
    if events != [] {
      RemoveEventAppend(a, b, events[0]);
      RemoveEventsAppend(RemoveEvent(a, events[0]), RemoveEvent(b, events[0]), events[1..]);
    }
  }

  lemma {:induction false} RemoveEventsEmpty(events: seq<string>)
    ensures RemoveEvents([], events) == []
    decreases |events|
  {
    if events != [] {
      RemoveEventsEmpty(events[1..]);
    }
  }

  /** A listener of one of the events is removed. */
  lemma {:induction false} RemoveEventsOne(l: Listener, events: seq<string>)
    requires l.event in events
    ensures RemoveEvents([l], events) == []
    decreases |events|
  {
    assert [l][1..] == [];
    if events[0] == l.event {
      assert RemoveEvent([l], events[0]) == [];
      RemoveEventsEmpty(events[1..]);
    } else {
      assert RemoveEvent([l], events[0]) == [l];
      RemoveEventsOne(l, events[1..]);
    }
  }

  /** A list whose every listener is of one of the events is removed entirely. */
  lemma {:induction false} RemoveEventsAll(b: seq<Listener>, events: seq<string>)
    requires forall i :: 0 <= i < |b| ==> b[i].event in events
    ensures RemoveEvents(b, events) == []
  {
    if b == [] {
      RemoveEventsEmpty(events);
    } else {
      assert b == [b[0]] + b[1..];
      RemoveEventsAppend([b[0]], b[1..], events);
      RemoveEventsOne(b[0], events);
      RemoveEventsAll(b[1..], events);
    }
  }

  lemma {:induction false} RemoveEventAppend(a: seq<Listener>, b: seq<Listener>, event: string)
    ensures RemoveEvent(a + b, event) == RemoveEvent(a, event) + RemoveEvent(b, event)
  {
    if a == [] {
      assert a + b == b;
    } else {
      assert (a + b)[0] == a[0];
      assert (a + b)[1..] == a[1..] + b;
      RemoveEventAppend(a[1..], b, event);
    }
  }

  // ---------------------------------------------------------------- routes

  datatype Pagina = Login | ControlHorario | Historial | Calendario | LibroVentas | NuevaVenta | HorarioCrm | Usuarios

  /** One route: its path, its page, whether the guard wraps it and with which flag. */
  datatype Ruta = Ruta(path: string, pagina: Pagina, protegida: bool, adminOnly: bool)

  const RUTAS: seq<Ruta> := [
    Ruta(LOGIN, Login, false, false),
    Ruta(CONTROL_HORARIO, ControlHorario, true, false),
    Ruta("/laboral/historial", Historial, true, false),
    Ruta("/laboral/calendario", Calendario, true, false),
    Ruta(LIBRO_VENTAS, LibroVentas, true, false),
    Ruta("/crm/nueva-venta", NuevaVenta, true, false),
    Ruta("/crm/horario", HorarioCrm, true, true),
    Ruta("/crm/usuarios", Usuarios, true, true)]

  predicate Conocida(path: string) {
    exists i :: 0 <= i < |RUTAS| && RUTAS[i].path == path
  }

  /** The first route of `rutas` with the path. */
  function Buscar(rutas: seq<Ruta>, path: string): (r: Option<Ruta>)
    ensures r.Some? <==> exists i :: 0 <= i < |rutas| && rutas[i].path == path
    ensures r.Some? ==> r.value in rutas && r.value.path == path
  {
    if rutas == [] then None
    else if rutas[0].path == path then Some(rutas[0])
    else
      var rest := Buscar(rutas[1..], path);
      assert forall i :: 1 <= i < |rutas| ==> rutas[i] == rutas[1..][i - 1];
      rest
  }

  /** What the router shows for a path: a page, a redirect, or the guard's loading text. */
  datatype Resultado = Pagina(ruta: Ruta) | Navegar(to: string) | EnEspera

  function Resolver(path: string): (r: Resultado)
    ensures !Conocida(path) ==> r == Navegar(CONTROL_HORARIO)
    ensures Conocida(path) ==> r.Pagina? && r.ruta in RUTAS && r.ruta.path == path
  {
    match Buscar(RUTAS, path)
    case Some(ruta) => Pagina(ruta)
    case None => Navegar(CONTROL_HORARIO)
  }

  /** No two routes share a path, so each known path has exactly one page. */
  lemma RutasDistintas()
    ensures forall i, j :: 0 <= i < j < |RUTAS| ==> RUTAS[i].path != RUTAS[j].path
  {
  }

  /** The catch-all target is itself a route: the redirect never loops. */
  lemma RedireccionTermina(path: string)
    ensures Resolver(path).Navegar? ==> Resolver(Resolver(path).to).Pagina?
  {
    assert RUTAS[1].path == CONTROL_HORARIO;
  }

  /** Exactly the HR schedule page and the user page are admin-only; every route but the login page is guarded. */
  lemma RutasAdmin()
    ensures forall r :: r in RUTAS ==> (r.adminOnly <==> r.path == "/crm/horario" || r.path == "/crm/usuarios")
    ensures forall r :: r in RUTAS ==> (r.protegida <==> r.path != LOGIN)
  {
  }

  /** What a visit to a path shows, the guard applied to guarded routes. */
  function Visitar(path: string, items: map<string, string>, parsed: Option<Usuario>, movil: bool,
                   loading: bool, enJornada: bool): (r: Resultado)
    ensures !Conocida(path) ==> r == Navegar(CONTROL_HORARIO)
  {
    match Resolver(path)
    case Navegar(to) => Navegar(to)
    case Pagina(ruta) =>
      if !ruta.protegida then Pagina(ruta)
      else match AuthGuard.Decision(items, parsed, movil, path, ruta.adminOnly, loading, enJornada)
        case Redirect(to) => Navegar(to)
        case Contenido => Pagina(ruta)
        case _ => EnEspera
  }

  /** A non-admin never reaches the admin-only pages, whatever the storage, device or shift. */
  lemma SoloAdminVeHorarioYUsuarios(path: string, items: map<string, string>, u: Usuario, movil: bool, enJornada: bool)
    requires path == "/crm/horario" || path == "/crm/usuarios"
    requires !IsAdmin(u)
    ensures Visitar(path, items, Some(u), movil, false, enJornada).Navegar?
    ensures Visitar(path, items, Some(u), movil, false, enJornada).to in {LOGIN, CONTROL_HORARIO}
  {
    ResolverAdmin(path);
    var ruta := Resolver(path).ruta;
    var d := AuthGuard.Decision(items, Some(u), movil, path, ruta.adminOnly, false, enJornada);
    assert d == Redirect(LOGIN) || d == Redirect(CONTROL_HORARIO);
  }

  /** The two admin pages are known, guarded and admin-only. */
  lemma ResolverAdmin(path: string)
    requires path == "/crm/horario" || path == "/crm/usuarios"
    ensures Resolver(path).Pagina? && Resolver(path).ruta.protegida && Resolver(path).ruta.adminOnly
  {
    RutasAdmin();
    assert RUTAS[6].path == "/crm/horario" && RUTAS[7].path == "/crm/usuarios";
  }
}
