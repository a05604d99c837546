/**
 * The guard in front of every page of the application: it sends visitors
 * without a session to the login page, clears a session whose user entry
 * cannot be parsed, waits for the shift check, keeps employees out of the
 * CRM while they are on a phone, after a forced close or off shift, and
 * keeps non-admins out of admin-only routes.
 *
 * Whether the browser is a phone or tablet (a match on the user agent) is a
 * parameter, as is the user object `JSON.parse` makes of the `user` entry
 * (`None` when it throws).
 */
module AuthGuard {
  import opened Base
  import opened Strings
  import opened Storage
  import opened Session

  const JORNADA_CERRADA := "jornada_cerrada"
  const CRM_PREFIX := "/crm"
  const DENTRO := "DENTRO"

  /** The answer to `GET /horario/hoy`: the `estado` in its body, or a failure. */
  datatype Comprobacion = Respondio(estado: Option<string>) | Fallo

  /** The shift flag the check leaves: admins always count as on shift; anyone else only on an answer saying DENTRO. */
  function EnJornada(role: Option<string>, c: Comprobacion): (r: bool)
    ensures role == Some(ADMIN) ==> r
    ensures c.Fallo? && role != Some(ADMIN) ==> !r
    ensures role != Some(ADMIN) ==> (r <==> c == Respondio(Some(DENTRO)))
  {
    if role == Some(ADMIN) then true
    else match c
      case Respondio(e) => e == Some(DENTRO)
      case Fallo => false
  }

  /** The storage says the shift was closed from the server. */
  predicate Cerrada(items: map<string, string>) {
    Item(items, JORNADA_CERRADA) == Some("1")
  }

  /** The CRM firewall: an employee, on a CRM path, on a phone or after a forced close or off shift. */
  predicate Cortafuegos(u: Usuario, path: string, movil: bool, cerrada: bool, enJornada: bool) {
    u.role == Some(EMPLEADO) && StartsWith(path, CRM_PREFIX) && (movil || cerrada || !enJornada)
  }

  /** What the guard renders for the given storage, parsed user, device, path and check state. */
  function Decision(items: map<string, string>, parsed: Option<Usuario>, movil: bool, path: string,
                    adminOnly: bool, loading: bool, enJornada: bool): (d: Destino)
    ensures d == Redirect(LOGIN) <==> !Authenticated(items) || parsed.None?
    ensures d == Cargando <==> Authenticated(items) && parsed.Some? && loading
    ensures d == Redirect(CONTROL_HORARIO) <==>
      Authenticated(items) && parsed.Some? && !loading &&
      (Cortafuegos(parsed.value, path, movil, Cerrada(items), enJornada) || (adminOnly && !IsAdmin(parsed.value)))
    ensures d == Contenido <==>
      Authenticated(items) && parsed.Some? && !loading &&
      !Cortafuegos(parsed.value, path, movil, Cerrada(items), enJornada) && (!adminOnly || IsAdmin(parsed.value))
    ensures d != ErrorRender
  {
    if !Authenticated(items) then Redirect(LOGIN)
    else if parsed.None? then Redirect(LOGIN)
    else if loading then Cargando
    else if Cortafuegos(parsed.value, path, movil, Cerrada(items), enJornada) then Redirect(CONTROL_HORARIO)
    else if adminOnly && !IsAdmin(parsed.value) then Redirect(CONTROL_HORARIO)
    else Contenido
  }

  /** One mounted guard: the loading flag and the shift flag of its check. */
  class ProtectedRoute {
    var loading: bool
    var enJornada: bool

    constructor ()
      ensures loading && !enJornada
    {
      loading := true;
      enJornada := false;
    }

    /** The effect: admins are on shift at once; anyone else is on shift iff the check answers DENTRO. */
    method ComprobarJornada(role: Option<string>, c: Comprobacion)
      modifies this
      ensures !loading && enJornada == EnJornada(role, c)
    {
      if role == Some(ADMIN) {
        enJornada := true;
        loading := false;
        return;
      }
      match c {
        case Respondio(e) => enJornada := e == Some(DENTRO);
        case Fallo => enJornada := false;
      }
      loading := false;
    }

    /** One render: a session whose user entry does not parse is wiped before going to the login page. */
    method Render(storage: LocalStorage, parsed: Option<Usuario>, movil: bool, path: string, adminOnly: bool)
      returns (d: Destino)
      modifies storage
      ensures d == Decision(old(storage.items), parsed, movil, path, adminOnly, loading, enJornada)
      ensures storage.items == if Authenticated(old(storage.items)) && parsed.None? then map[] else old(storage.items)
    {
      var token := storage.GetItem(TOKEN);
      var user := storage.GetItem(USER);
      var cerrada := storage.GetItem(JORNADA_CERRADA) == Some("1");
      if !Truthy(token) || !Truthy(user) {
        return Redirect(LOGIN);
      }
      if parsed.None? {
        storage.Clear();
        return Redirect(LOGIN);
      }
      if loading {
        return Cargando;
      }
      var u := parsed.value;
      if u.role == Some(EMPLEADO) && StartsWith(path, CRM_PREFIX) && (movil || cerrada || !enJornada) {
        return Redirect(CONTROL_HORARIO);
      }
      if adminOnly && u.role != Some(ADMIN) {
        return Redirect(CONTROL_HORARIO);
      }
      return Contenido;
    }
  }

  /** An employee on a CRM path, once the check is done, sees it only on a desktop, without a forced close, on shift, and on a route that is not admin-only. */
  lemma EmpleadoEnCrm(items: map<string, string>, movil: bool, path: string, adminOnly: bool, enJornada: bool)
    requires Authenticated(items) && StartsWith(path, CRM_PREFIX)
    ensures Decision(items, Some(Usuario(Some(EMPLEADO))), movil, path, adminOnly, false, enJornada)
      == if movil || Cerrada(items) || !enJornada || adminOnly then Redirect(CONTROL_HORARIO) else Contenido
  {
  }

  /** Once its check has run, an admin reaches every path, on any device, whatever the storage says about the shift. */
  lemma AdminNuncaBloqueado(items: map<string, string>, movil: bool, path: string, adminOnly: bool, c: Comprobacion)
    requires Authenticated(items)
    ensures Decision(items, Some(Usuario(Some(ADMIN))), movil, path, adminOnly, false, EnJornada(Some(ADMIN), c)) == Contenido
  {
  }

  /** Outside the CRM, or for any role but "empleado", only the admin-only flag can redirect. */
  lemma CortafuegosSoloEmpleadosCrm(items: map<string, string>, u: Usuario, movil: bool, path: string, adminOnly: bool, enJornada: bool)
    requires Authenticated(items)
    requires u.role != Some(EMPLEADO) || !StartsWith(path, CRM_PREFIX)
    ensures Decision(items, Some(u), movil, path, adminOnly, false, enJornada)
      == if adminOnly && !IsAdmin(u) then Redirect(CONTROL_HORARIO) else Contenido
  {
  }

  /** A check that fails keeps an employee out of the CRM. */
  lemma FalloBloqueaCrm(items: map<string, string>, movil: bool, path: string, adminOnly: bool)
    requires Authenticated(items) && StartsWith(path, CRM_PREFIX)
    ensures Decision(items, Some(Usuario(Some(EMPLEADO))), movil, path, adminOnly, false, EnJornada(Some(EMPLEADO), Fallo))
      == Redirect(CONTROL_HORARIO)
  {
  }

  /** After the wipe of an unparsable session, the next render goes to the login page whatever it parses. */
  lemma BorradoVaALogin(parsed: Option<Usuario>, movil: bool, path: string, adminOnly: bool, loading: bool, enJornada: bool)
    ensures Decision(map[], parsed, movil, path, adminOnly, loading, enJornada) == Redirect(LOGIN)
  {
    assert !Truthy(Item(map[], TOKEN));
  }
}
