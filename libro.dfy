/**
 * The sales ledger's view of a month, shared by both ledger pages: the
 * three "ALL"-or-value filters, the total premium, the premium per line of
 * business (`produccionPorRamo`, a record filled by assignment), the
 * de-duplicated option lists and the month names.
 */
module Libro {
  import opened Base
  import opened Seqs
  import opened JsRecord
  import opened Ventas

  const ALL := "ALL"

  datatype Filtros = Filtros(aseguradora: string, usuario: string, ramo: string)

  /** A sale passes every filter that is not "ALL"; a sale without creator fails a user filter. */
  predicate Matches(f: Filtros, v: Venta) {
    (f.aseguradora == ALL || v.aseguradora == f.aseguradora)
    && (f.usuario == ALL || v.createdBy == Some(f.usuario))
    && (f.ramo == ALL || v.ramo == f.ramo)
  }

  /** `ventasFiltradas`: the sales passing the filters, in their order. */
  function VentasFiltradas(vs: seq<Venta>, f: Filtros): (r: seq<Venta>)
    ensures forall i :: 0 <= i < |r| ==> r[i] in vs && Matches(f, r[i])
    ensures forall i :: 0 <= i < |vs| && Matches(f, vs[i]) ==> vs[i] in r
  {
    Filter(vs, v => Matches(f, v))
  }

  /** With every filter on "ALL" nothing is filtered out. */
  lemma FiltradasAll(vs: seq<Venta>)
    ensures VentasFiltradas(vs, Filtros(ALL, ALL, ALL)) == vs
  {
    FilterKeepsAll(vs, v => Matches(Filtros(ALL, ALL, ALL), v));
  }

  /** Filtering keeps relative order: it distributes over concatenation. */
  lemma FiltradasAppend(a: seq<Venta>, b: seq<Venta>, f: Filtros)
    ensures VentasFiltradas(a + b, f) == VentasFiltradas(a, f) + VentasFiltradas(b, f)
  {
    FilterAppend(a, b, v => Matches(f, v));
  }

  /** Setting the insurer filter after the others is the same as applying all three at once. */
  lemma FiltradasNarrow(vs: seq<Venta>, f: Filtros, aseguradora: string)
    requires f.aseguradora == ALL
    ensures VentasFiltradas(VentasFiltradas(vs, f), Filtros(aseguradora, ALL, ALL))
      == VentasFiltradas(vs, f.(aseguradora := aseguradora))
  {
    var g := f.(aseguradora := aseguradora);
    FilterFilter(vs, v => Matches(f, v), v => Matches(Filtros(aseguradora, ALL, ALL), v), v => Matches(g, v));
  }

  function Prima(v: Venta): int { v.primaNeta }

  /** `produccionTotal`: the sum of the premiums. */
  function ProduccionTotal(vs: seq<Venta>): int {
    Sum(vs, Prima)
  }

  function RamosOf(vs: seq<Venta>): (rs: seq<string>)
    ensures |rs| == |vs| && forall i :: 0 <= i < |vs| ==> rs[i] == vs[i].ramo
  {
    seq(|vs|, i requires 0 <= i < |vs| => vs[i].ramo)
  }

  function AseguradorasOf(vs: seq<Venta>): (rs: seq<string>)
    ensures |rs| == |vs| && forall i :: 0 <= i < |vs| ==> rs[i] == vs[i].aseguradora
  {
    seq(|vs|, i requires 0 <= i < |vs| => vs[i].aseguradora)
  }

  /** The record `produccionPorRamo` holds after folding the sales in order. */
  function PorRamo(vs: seq<Venta>): (r: Rec<string, int>)
    ensures Valid(r)
  {
    if vs == [] then Empty()
    else
      AddVenta(PorRamo(vs[..|vs| - 1]), vs[|vs| - 1])
  }

  /** `acc[ramo] || 0`. */
  function Anterior(acc: Rec<string, int>, ramo: string): (n: int)
    ensures ramo in acc.vals ==> n == acc.vals[ramo]
    ensures ramo !in acc.vals ==> n == 0
  {
    if ramo in acc.vals then acc.vals[ramo] else 0
  }

  /** One step of the reduction: the sale's premium is added to its line. */
  function AddVenta(acc: Rec<string, int>, v: Venta): (r: Rec<string, int>)
    requires Valid(acc)
    ensures Valid(r)
  {
    Put(acc, v.ramo, Anterior(acc, v.ramo) + v.primaNeta)
  }

  lemma PorRamoPrefix(vs: seq<Venta>, i: nat)
    requires i < |vs|
    ensures PorRamo(vs[..i + 1]) == AddVenta(PorRamo(vs[..i]), vs[i])
  {
    assert vs[..i + 1][..i] == vs[..i];
  }

  /** A sale adds its premium to the total over the lines. */
  lemma AddVentaTotal(acc: Rec<string, int>, v: Venta)
    requires Valid(acc)
    ensures Total(AddVenta(acc, v), Id) == Total(acc, Id) + v.primaNeta
  {
    var n := Anterior(acc, v.ramo);
    var r := Put(acc, v.ramo, n + v.primaNeta);
    assert AddVenta(acc, v) == r;
    PutTotal(acc, v.ramo, n + v.primaNeta, Id);
    if v.ramo in acc.vals {
      assert Total(r, Id) == Total(acc, Id) - Id(n) + Id(n + v.primaNeta);
    } else {
      assert Total(r, Id) == Total(acc, Id) + Id(n + v.primaNeta);
    }
  }

  /** `produccionPorRamo`: `acc[v.ramo] = (acc[v.ramo] || 0) + v.primaNeta` for each sale. */
  method ProduccionPorRamo(vs: seq<Venta>) returns (acc: Rec<string, int>)
    ensures acc == PorRamo(vs)
  {
    acc := Empty();
    var i := 0;
    while i < |vs|
      invariant 0 <= i <= |vs|
      invariant acc == PorRamo(vs[..i])
    {
      PorRamoPrefix(vs, i);
      acc := AddVenta(acc, vs[i]);
      i := i + 1;
    }
    assert vs[..|vs|] == vs;
  }

  function Id(n: int): int { n }

  /** The per-line values add up to the total premium. */
  lemma {:induction false} PorRamoTotal(vs: seq<Venta>)
    ensures Total(PorRamo(vs), Id) == ProduccionTotal(vs)
  {
    if vs != [] {
      var init := vs[..|vs| - 1];
      PorRamoTotal(init);
      AddVentaTotal(PorRamo(init), vs[|vs| - 1]);
    }
  }

  /** The keys are the lines of business of the sales, each once, in order of first appearance. */
  lemma {:induction false} PorRamoKeys(vs: seq<Venta>)
    ensures PorRamo(vs).keys == Dedup(RamosOf(vs))
  {
    if vs != [] {
      var init := vs[..|vs| - 1];
      PorRamoKeys(init);
      assert RamosOf(vs)[..|vs| - 1] == RamosOf(init);
    }
  }

  predicate InRamo(ramo: string, v: Venta) { v.ramo == ramo }

  /** Each line's value is the sum of the premiums of that line's sales. */
  lemma {:induction false} PorRamoValue(vs: seq<Venta>, ramo: string)
    requires ramo in PorRamo(vs).vals
    ensures PorRamo(vs).vals[ramo] == Sum(Filter(vs, v => InRamo(ramo, v)), Prima)
  {
    var init := vs[..|vs| - 1];
    var v := vs[|vs| - 1];
    var acc := PorRamo(init);
    var p := (x: Venta) => InRamo(ramo, x);
    var f := Filter(init, p);
    assert PorRamo(vs) == AddVenta(acc, v);
    assert Filter(vs, p) == if v.ramo == ramo then f + [v] else f;
    if v.ramo == ramo {
      if ramo in acc.vals {
        PorRamoValue(init, ramo);
      } else {
        PorRamoAbsent(init, ramo);
      }
      SumAppend(f, [v], Prima);
    } else {
      PorRamoValue(init, ramo);
    }
  }

  /** A line that never received a value has no sales. */
  lemma {:induction false} PorRamoAbsent(vs: seq<Venta>, ramo: string)
    requires ramo !in PorRamo(vs).vals
    ensures Filter(vs, v => InRamo(ramo, v)) == []
  {
    if vs != [] {
      PorRamoAbsent(vs[..|vs| - 1], ramo);
    }
  }

  /** Every name of a creator, skipping sales without one or with an empty one. */
  function NombresOf(vs: seq<Venta>): (ns: seq<string>)
    ensures forall i :: 0 <= i < |ns| ==> ns[i] != ""
    ensures forall i :: 0 <= i < |ns| ==> exists j :: 0 <= j < |vs| && vs[j].createdBy == Some(ns[i])
    ensures forall j :: 0 <= j < |vs| && Truthy(vs[j].createdBy) ==> vs[j].createdBy.value in ns
  {
    if vs == [] then []
    else
      var rest := NombresOf(vs[..|vs| - 1]);
      var v := vs[|vs| - 1];
      assert forall j :: 0 <= j < |vs| - 1 ==> vs[..|vs| - 1][j] == vs[j];
      if Truthy(v.createdBy) then rest + [v.createdBy.value] else rest
  }

  datatype Opciones = Opciones(aseguradoras: seq<string>, usuarios: seq<string>, ramos: seq<string>)

  /** The filter options, taken from the unfiltered month list. */
  function OpcionesOf(ventas: seq<Venta>): (o: Opciones)
    ensures Distinct(o.aseguradoras) && Distinct(o.usuarios) && Distinct(o.ramos)
    ensures forall i :: 0 <= i < |ventas| ==>
      ventas[i].aseguradora in o.aseguradoras && ventas[i].ramo in o.ramos
    ensures forall i :: 0 <= i < |ventas| && Truthy(ventas[i].createdBy) ==> ventas[i].createdBy.value in o.usuarios
    ensures forall i :: 0 <= i < |o.usuarios| ==> o.usuarios[i] != ""
    ensures forall i :: 0 <= i < |o.aseguradoras| ==>
      exists j :: 0 <= j < |ventas| && ventas[j].aseguradora == o.aseguradoras[i]
    ensures forall i :: 0 <= i < |o.usuarios| ==>
      exists j :: 0 <= j < |ventas| && ventas[j].createdBy == Some(o.usuarios[i])
    ensures forall i :: 0 <= i < |o.ramos| ==>
      exists j :: 0 <= j < |ventas| && ventas[j].ramo == o.ramos[i]
  {
    Opciones(Dedup(AseguradorasOf(ventas)), Dedup(NombresOf(ventas)), Dedup(RamosOf(ventas)))
  }

  /** Picking any offered insurer, with the other filters on "ALL", leaves at least one sale. */
  lemma OpcionAseguradoraNoVacia(ventas: seq<Venta>, a: string)
    requires a in OpcionesOf(ventas).aseguradoras
    ensures VentasFiltradas(ventas, Filtros(a, ALL, ALL)) != []
  {
    var names := AseguradorasOf(ventas);
    var k :| 0 <= k < |names| && names[k] == a;
    assert Matches(Filtros(a, ALL, ALL), ventas[k]);
  }

  /** Picking any offered user, with the other filters on "ALL", leaves at least one sale. */
  lemma OpcionUsuarioNoVacia(ventas: seq<Venta>, u: string)
    requires u in OpcionesOf(ventas).usuarios
    ensures VentasFiltradas(ventas, Filtros(ALL, u, ALL)) != []
  {
    var names := NombresOf(ventas);
    var offered := Dedup(names);
    var i :| 0 <= i < |offered| && offered[i] == u;
    assert u in names;
    var k :| 0 <= k < |names| && names[k] == u;
    var j :| 0 <= j < |ventas| && ventas[j].createdBy == Some(names[k]);
    assert Matches(Filtros(ALL, u, ALL), ventas[j]);
    assert ventas[j] in VentasFiltradas(ventas, Filtros(ALL, u, ALL));
  }

  const MESES: seq<string> := [
    "Enero", "Febrero", "Marzo", "Abril", "Mayo", "Junio",
    "Julio", "Agosto", "Septiembre", "Octubre", "Noviembre", "Diciembre"]

  /** `mesNombre(m)`: `meses[m - 1]`, undefined outside 1..12. */
  function MesNombre(m: int): (r: Option<string>)
    ensures r.Some? <==> 1 <= m <= 12
    ensures r.Some? ==> r.value == MESES[m - 1]
  {
    if 1 <= m <= 12 then Some(MESES[m - 1]) else None
  }

  /** Different months have different names. */
  lemma MesNombreInjective(a: int, b: int)
    requires MesNombre(a).Some? && MesNombre(a) == MesNombre(b)
    ensures a == b
  {
    assert Distinct(MESES);
  }
}
