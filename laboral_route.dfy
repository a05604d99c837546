/**
 * The guard of the work-time area: visitors without a session go to the
 * login page, admins go to the sales ledger, everyone else gets the page.
 * A `user` entry that does not parse removes the session (`token` and
 * `user`, nothing else) and goes to the login page.
 */
module LaboralRoute {
  import opened Base
  import opened Storage
  import opened Session

  /** What the guard renders for the given storage and parsed user (`None` when `JSON.parse` throws). */
  function Decision(items: map<string, string>, parsed: Option<Usuario>): (d: Destino)
    ensures d == Redirect(LOGIN) <==> !Authenticated(items) || parsed.None?
    ensures d == Redirect(LIBRO_VENTAS) <==> Authenticated(items) && parsed.Some? && IsAdmin(parsed.value)
    ensures d == Contenido <==> Authenticated(items) && parsed.Some? && !IsAdmin(parsed.value)
    ensures d != Cargando && d != ErrorRender
  {
    if !Authenticated(items) then Redirect(LOGIN)
    else match parsed
      case None => Redirect(LOGIN)
      case Some(u) => if IsAdmin(u) then Redirect(LIBRO_VENTAS) else Contenido
  }

  /** The storage after a render. */
  function Tras(items: map<string, string>, parsed: Option<Usuario>): (r: map<string, string>)
    ensures Authenticated(items) && parsed.None? ==> r.Keys == items.Keys - {TOKEN, USER}
    ensures forall k :: k in r ==> k in items && r[k] == items[k]
    ensures !Authenticated(items) || parsed.Some? ==> r == items
  {
    if Authenticated(items) && parsed.None? then items - {TOKEN, USER} else items
  }

  /** One render, with its storage clean-up. */
  method Render(storage: LocalStorage, parsed: Option<Usuario>) returns (d: Destino)
    modifies storage
    ensures d == Decision(old(storage.items), parsed)
    ensures storage.items == Tras(old(storage.items), parsed)
  {
    var token := storage.GetItem(TOKEN);
    var user := storage.GetItem(USER);
    if !Truthy(token) || !Truthy(user) {
      return Redirect(LOGIN);
    }
    match parsed {
      case None =>
        storage.RemoveItem(TOKEN);
        storage.RemoveItem(USER);
        return Redirect(LOGIN);
      case Some(u) =>
        if IsAdmin(u) {
          return Redirect(LIBRO_VENTAS);
        }
        return Contenido;
    }
  }

  /** After the clean-up the session is gone: the next render goes to the login page whatever it parses. */
  lemma LimpiezaEsDefinitiva(items: map<string, string>, p1: Option<Usuario>, p2: Option<Usuario>)
    requires Authenticated(items) && p1.None?
    ensures Decision(Tras(items, p1), p2) == Redirect(LOGIN)
  {
    assert TOKEN !in Tras(items, p1);
  }
}
