/**
 * The older guard, still in the repository: it only checks that a session
 * exists and, on admin-only routes, that the user is an admin. It parses the
 * `user` entry only on admin-only routes, without catching a parse failure,
 * so there an unparsable entry makes the render throw.
 */
module LegacyGuard {
  import opened Base
  import opened Session

  /** What the guard renders for the given storage, parsed user (`None` when `JSON.parse` throws) and flag. */
  function Decision(items: map<string, string>, parsed: Option<Usuario>, adminOnly: bool): (d: Destino)
    ensures d == Redirect(LOGIN) <==> !Authenticated(items)
    ensures d == Contenido <==> Authenticated(items) && (!adminOnly || (parsed.Some? && IsAdmin(parsed.value)))
    ensures d == Redirect(LIBRO_VENTAS) <==> Authenticated(items) && adminOnly && parsed.Some? && !IsAdmin(parsed.value)
    ensures d == ErrorRender <==> Authenticated(items) && adminOnly && parsed.None?
    ensures d != Cargando
  {
    if !Authenticated(items) then Redirect(LOGIN)
    else if adminOnly then
      match parsed
      case None => ErrorRender
      case Some(u) => if !IsAdmin(u) then Redirect(LIBRO_VENTAS) else Contenido
    else Contenido
  }

  /** Without the admin-only flag the user entry is never parsed: any session gets the page. */
  lemma SinAdminOnlyNoParsea(items: map<string, string>, p1: Option<Usuario>, p2: Option<Usuario>)
    ensures Decision(items, p1, false) == Decision(items, p2, false)
  {
  }
}
