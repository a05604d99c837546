/**
 * What the route guards read: the `token` and `user` entries of the
 * browser's storage, the user object `JSON.parse` makes of `user`, and
 * what a guard renders in the end.
 */
module Session {
  import opened Base

  const TOKEN := "token"
  const USER := "user"
  const ADMIN := "admin"
  const EMPLEADO := "empleado"

  const LOGIN := "/login"
  const CONTROL_HORARIO := "/laboral/control-horario"
  const LIBRO_VENTAS := "/crm/libro-ventas"

  /** The parsed `user` entry; only its `role` matters to the guards. */
  datatype Usuario = Usuario(role: Option<string>)

  /** What a guard renders: a redirect, a loading text, its children, or a render that throws. */
  datatype Destino = Redirect(to: string) | Cargando | Contenido | ErrorRender

  /** `localStorage.getItem(key)` on the storage contents. */
  function Item(items: map<string, string>, key: string): (r: Option<string>)
    ensures r.Some? <==> key in items
    ensures r.Some? ==> r.value == items[key]
  {
    if key in items then Some(items[key]) else None
  }

  /** Both `token` and `user` are present and non-empty. */
  predicate Authenticated(items: map<string, string>) {
    Truthy(Item(items, TOKEN)) && Truthy(Item(items, USER))
  }

  predicate IsAdmin(u: Usuario) {
    u.role == Some(ADMIN)
  }
}
