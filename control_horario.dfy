/**
 * The clock-in screen: today's record from the server, the start time kept
 * in the browser under `hora_inicio_jornada` while the employee is in, the
 * live minute counter built from both, and the message shown after a clock
 * in or out. Times are milliseconds since the epoch; the current time and
 * hour are parameters.
 */
module ControlHorario {
  import opened Base

  datatype EstadoJornada = Fuera | Dentro

  /** Today's record. */
  datatype Registro = Registro(estado: EstadoJornada, minutosTrabajados: int, nombre: string)

  /** The record shown before the first answer and after an empty or failed one. */
  const REGISTRO_VACIO := Registro(Fuera, 0, "")

  /** What `GET /horario/hoy` gave: a record, an empty body, or a failure. */
  datatype Respuesta = Datos(registro: Registro) | Vacia | Fallo

  const ERROR_FICHAR := "Error al fichar"

  /**
   * `calcularMinutosEnVivo`: while in and with a stored start, the server's
   * minutes plus the whole minutes elapsed since the start; otherwise the
   * server's minutes. (`/` on a positive divisor rounds down, as `Math.floor` does.)
   */
  function MinutosEnVivo(registro: Registro, inicio: Option<int>, ahora: int): (r: int)
    ensures registro.estado == Fuera || inicio.None? ==> r == registro.minutosTrabajados
    ensures registro.estado == Dentro && inicio.Some? ==>
      60000 * (r - registro.minutosTrabajados) <= ahora - inicio.value < 60000 * (r - registro.minutosTrabajados + 1)
    ensures inicio.Some? && ahora >= inicio.value ==> r >= registro.minutosTrabajados
  {
    if registro.estado != Dentro then registro.minutosTrabajados
    else if inicio.None? then registro.minutosTrabajados
    else registro.minutosTrabajados + (ahora - inicio.value) / 60000
  }

  /** The counter never goes back as the clock moves on. */
  lemma MinutosEnVivoMonotone(registro: Registro, inicio: Option<int>, t1: int, t2: int)
    requires t1 <= t2
    ensures MinutosEnVivo(registro, inicio, t1) <= MinutosEnVivo(registro, inicio, t2)
  {
  }

  /** A minute of clock time adds exactly one to the counter. */
  lemma MinutosEnVivoTick(registro: Registro, inicio: int, ahora: int)
    requires registro.estado == Dentro
    ensures MinutosEnVivo(registro, Some(inicio), ahora + 60000) == MinutosEnVivo(registro, Some(inicio), ahora) + 1
  {
    var d := ahora - inicio;
    assert (d + 60000) / 60000 == d / 60000 + 1;
  }

  /** The start time `cargarEstado` leaves stored: kept or set to now while in, removed when out. */
  function InicioTras(estado: EstadoJornada, guardado: Option<int>, ahora: int): (r: Option<int>)
    ensures estado == Fuera ==> r.None?
    ensures estado == Dentro && guardado.Some? ==> r == guardado
    ensures estado == Dentro && guardado.None? ==> r == Some(ahora)
  {
    if estado == Dentro then (if guardado.Some? then guardado else Some(ahora)) else None
  }

  /** Reloading while still in never moves the start: the counter keeps counting from the first clock-in seen. */
  lemma InicioStable(guardado: Option<int>, t1: int, t2: int)
    ensures InicioTras(Dentro, InicioTras(Dentro, guardado, t1), t2) == InicioTras(Dentro, guardado, t1)
  {
  }

  /** The message after a clock in or out, chosen by the state before it. */
  function Saludo(estabaFuera: bool, hora: int, nombre: string): (s: string)
    ensures estabaFuera && hora < 14 ==> s == "Buenos días, " + nombre
    ensures estabaFuera && hora >= 14 ==> s == "Buenas tardes, " + nombre
    ensures !estabaFuera ==> s == "Hasta pronto, " + nombre
  {
    if estabaFuera then (if hora < 14 then "Buenos días" else "Buenas tardes") + ", " + nombre
    else "Hasta pronto, " + nombre
  }

  /** The three messages differ whatever the name. */
  lemma SaludosDistintos(nombre: string)
    ensures Saludo(true, 9, nombre) != Saludo(true, 15, nombre)
    ensures Saludo(true, 9, nombre) != Saludo(false, 9, nombre)
    ensures Saludo(true, 15, nombre) != Saludo(false, 15, nombre)
  {
    assert Saludo(true, 9, nombre)[4] != Saludo(true, 15, nombre)[4];
    assert Saludo(true, 9, nombre)[0] != Saludo(false, 9, nombre)[0];
    assert Saludo(true, 15, nombre)[0] != Saludo(false, 15, nombre)[0];
  }

  class ControlHorarioPage {
    var registro: Registro
    var loading: bool
    var mensaje: Option<string>
    /** The `hora_inicio_jornada` entry of the browser's storage. */
    var horaInicio: Option<int>
    /** The alerts shown so far. */
    var alertas: seq<string>

    constructor (horaInicio: Option<int>)
      ensures registro == REGISTRO_VACIO && loading && mensaje.None?
      ensures this.horaInicio == horaInicio && alertas == []
    {
      registro := REGISTRO_VACIO;
      loading := true;
      mensaje := None;
      this.horaInicio := horaInicio;
      alertas := [];
    }

    /** `cargarEstado`: returns the record it received, if any. */
    method CargarEstado(respuesta: Respuesta, ahora: int) returns (recibido: Option<Registro>)
      modifies this
      ensures respuesta.Datos? ==> registro == respuesta.registro && recibido == Some(respuesta.registro)
      ensures respuesta.Datos? ==> horaInicio == InicioTras(respuesta.registro.estado, old(horaInicio), ahora)
      ensures !respuesta.Datos? ==> registro == REGISTRO_VACIO && recibido.None? && horaInicio == old(horaInicio)
      ensures !loading && mensaje == old(mensaje) && alertas == old(alertas)
    {
      match respuesta {
        case Datos(r) =>
          registro := r;
          if r.estado == Dentro {
            if horaInicio.None? {
              horaInicio := Some(ahora);
            }
          } else {
            horaInicio := None;
          }
          if r.estado == Fuera {
            horaInicio := None;
          }
          recibido := Some(r);
        case Vacia =>
          registro := REGISTRO_VACIO;
          recibido := None;
        case Fallo =>
          registro := REGISTRO_VACIO;
          recibido := None;
      }
      loading := false;
    }

    /**
     * `fichar`: the server toggles the state; the record is reloaded and the
     * greeting follows the state before the toggle. A failed toggle shows
     * the server's message or "Error al fichar" and changes nothing else.
     */
    method Fichar(post: CallOutcome, respuesta: Respuesta, ahora: int, hora: int)
      modifies this
      ensures post.Ok? && respuesta.Datos? ==> mensaje == Some(Saludo(old(registro).estado == Fuera, hora, respuesta.registro.nombre))
      ensures post.Ok? && !respuesta.Datos? ==> mensaje == Some(Saludo(old(registro).estado == Fuera, hora, ""))
      ensures post.Ok? ==> registro == (if respuesta.Datos? then respuesta.registro else REGISTRO_VACIO)
      ensures post.Ok? && respuesta.Datos? ==> horaInicio == InicioTras(respuesta.registro.estado, old(horaInicio), ahora)
      ensures post.Ok? && !respuesta.Datos? ==> horaInicio == old(horaInicio)
      ensures post.Ok? ==> alertas == old(alertas)
      ensures !post.Ok? ==> alertas == old(alertas) + [MessageOr(post.ServerMessage(), ERROR_FICHAR)]
      ensures !post.Ok? ==> registro == old(registro) && mensaje == old(mensaje) && horaInicio == old(horaInicio)
    {
      var estabaFuera := registro.estado == Fuera;
      if !post.Ok? {
        alertas := alertas + [MessageOr(post.ServerMessage(), ERROR_FICHAR)];
        return;
      }
      var nuevo := CargarEstado(respuesta, ahora);
      var nombre := if nuevo.Some? then nuevo.value.nombre else "";
      mensaje := Some(Saludo(estabaFuera, hora, nombre));
    }
  }

  /** After an answer saying the employee is out, the counter shows the server's minutes whatever the clock. */
  lemma FueraShowsServerMinutes(r: Registro, guardado: Option<int>, ahora: int, later: int)
    requires r.estado == Fuera
    ensures MinutosEnVivo(r, InicioTras(r.estado, guardado, ahora), later) == r.minutosTrabajados
  {
  }

  /** Right after the first answer saying the employee is in, the counter starts from the server's minutes. */
  lemma DentroStartsAtServerMinutes(r: Registro, ahora: int)
    requires r.estado == Dentro
    ensures MinutosEnVivo(r, InicioTras(r.estado, None, ahora), ahora) == r.minutosTrabajados
  {
  }
}
