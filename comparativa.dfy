/**
 * The three-position metric switcher of the dashboard's comparison card:
 * the arrows step through policy count, premium by effective date and
 * premium by registration date, without wrapping round; the title names
 * the current metric; the data of the card is reloaded for each metric.
 */
module Comparativa {
  import opened Base

  datatype Modo = Polizas | PrimaEfecto | PrimaCreated

  /** The place of a metric on the switcher, left to right. */
  function Posicion(m: Modo): (p: nat)
    ensures p <= 2
  {
    match m
    case Polizas => 0
    case PrimaEfecto => 1
    case PrimaCreated => 2
  }

  lemma PosicionInjective(a: Modo, b: Modo)
    requires Posicion(a) == Posicion(b)
    ensures a == b
  {
  }

  /** `titulo`. */
  function Titulo(m: Modo): (t: string)
    ensures m == Polizas ==> t == "Número de pólizas"
    ensures m == PrimaEfecto ==> t == "Prima por fecha efecto"
    ensures m == PrimaCreated ==> t == "Prima por registro (createdAt)"
  {
    if m == Polizas then "Número de pólizas"
    else if m == PrimaEfecto then "Prima por fecha efecto"
    else "Prima por registro (createdAt)"
  }

  /** Each metric has its own title. */
  lemma TitulosDistintos(a: Modo, b: Modo)
    requires a != b
    ensures Titulo(a) != Titulo(b)
  {
    if a == Polizas || b == Polizas {
      assert Titulo(Polizas)[0] == 'N';
      assert Titulo(PrimaEfecto)[0] == 'P' && Titulo(PrimaCreated)[0] == 'P';
    } else {
      assert Titulo(PrimaEfecto)[10] == 'f';
      assert Titulo(PrimaCreated)[10] == 'r';
    }
  }

  /** `goLeft`: one place to the left, staying put at the leftmost metric. */
  function Izquierda(m: Modo): (r: Modo)
    ensures Posicion(r) == if Posicion(m) == 0 then 0 else Posicion(m) - 1
  {
    match m
    case PrimaCreated => PrimaEfecto
    case PrimaEfecto => Polizas
    case Polizas => Polizas
  }

  /** `goRight`: one place to the right, staying put at the rightmost metric. */
  function Derecha(m: Modo): (r: Modo)
    ensures Posicion(r) == if Posicion(m) == 2 then 2 else Posicion(m) + 1
  {
    match m
    case Polizas => PrimaEfecto
    case PrimaEfecto => PrimaCreated
    case PrimaCreated => PrimaCreated
  }

  /** The left arrow is disabled exactly where it would not move. */
  predicate IzquierdaDisabled(m: Modo) { m == Polizas }

  /** The right arrow is disabled exactly where it would not move. */
  predicate DerechaDisabled(m: Modo) { m == PrimaCreated }

  lemma DisabledIffQuieto(m: Modo)
    ensures IzquierdaDisabled(m) <==> Izquierda(m) == m
    ensures DerechaDisabled(m) <==> Derecha(m) == m
  {
    if Izquierda(m) == m {
      assert Posicion(Izquierda(m)) == Posicion(m);
    }
    if Derecha(m) == m {
      assert Posicion(Derecha(m)) == Posicion(m);
    }
  }

  /** Left undoes right wherever right moves, and right undoes left wherever left moves. */
  lemma IdaYVuelta(m: Modo)
    ensures !DerechaDisabled(m) ==> Izquierda(Derecha(m)) == m
    ensures !IzquierdaDisabled(m) ==> Derecha(Izquierda(m)) == m
  {
    if !DerechaDisabled(m) {
      PosicionInjective(Izquierda(Derecha(m)), m);
    }
    if !IzquierdaDisabled(m) {
      PosicionInjective(Derecha(Izquierda(m)), m);
    }
  }

  /** Two clicks to the right from anywhere reach the rightmost metric. */
  lemma DosADerecha(m: Modo)
    ensures Derecha(Derecha(m)) == PrimaCreated
  {
    PosicionInjective(Derecha(Derecha(m)), PrimaCreated);
  }

  /** The answer of the dashboard endpoint: a body (maybe `null`) or a failure. */
  datatype Respuesta = Cuerpo(data: Option<map<string, seq<int>>>) | Fallo

  /** The card: the metric (held by the parent and changed through `setMode`), the series and the loading flag. */
  class ComparativaBlock {
    var modo: Modo
    var data: map<string, seq<int>>
    var loading: bool

    constructor (modo: Modo)
      ensures this.modo == modo && data == map[] && loading
    {
      this.modo := modo;
      data := map[];
      loading := true;
    }

    method GoLeft()
      modifies this
      ensures modo == Izquierda(old(modo))
      ensures data == old(data) && loading == old(loading)
    {
      if modo == PrimaCreated {
        modo := PrimaEfecto;
      } else if modo == PrimaEfecto {
        modo := Polizas;
      }
    }

    method GoRight()
      modifies this
      ensures modo == Derecha(old(modo))
      ensures data == old(data) && loading == old(loading)
    {
      if modo == Polizas {
        modo := PrimaEfecto;
      } else if modo == PrimaEfecto {
        modo := PrimaCreated;
      }
    }

    /** `fetchData`: the body's series, or none after a `null` body or a failure. */
    method FetchData(r: Respuesta)
      modifies this
      ensures !loading && modo == old(modo)
      ensures r.Cuerpo? && r.data.Some? ==> data == r.data.value
      ensures r.Fallo? || r.data.None? ==> data == map[]
    {
      loading := true;
      match r {
        case Cuerpo(d) => data := d.GetOr(map[]);
        case Fallo => data := map[];
      }
      loading := false;
    }
  }
}
