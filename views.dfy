/**
 * The status endpoints and the revision list of the REST API (inventario/views.py):
 * `VehiculoViewSet.estado`/`estados` and `RevisionViewSet.get_queryset`/`list`.
 */
module Views {
  import opened Wrappers
  import opened Inventory
  import opened Api

  /**
   * The status string and the counters of one review agree: critical exactly when
   * some item is 'no', complete exactly when every reviewed item is 'si', pending
   * otherwise.
   */
  ghost predicate Concuerdan(estado: string, revisados: nat, si: nat, no: nat) {
    && si + no <= revisados
    && (estado == "critico" <==> no > 0)
    && (estado == "completo" <==> revisados > 0 && si == revisados)
    && (estado == "pendiente" <==> no == 0 && (revisados == 0 || si < revisados))
  }

  /** The status rule and the detail counters of the same details always agree. */
  lemma ReglaConcuerda(ms: seq<Marca>)
    ensures Concuerdan(EstadoNombre(EstadoDeMarcas(ms)), |ms|, Count(ms, Si), Count(ms, No))
  {
    CountPartition(ms);
  }

  // ---------------------------------------------------------------------------
  // total_equipos
  // ---------------------------------------------------------------------------

  predicate PerteneceA(cs: seq<Compartimento>, e: Equipo, vehiculoId: nat) {
    exists c :: c in cs && c.id == e.compartimento && c.vehiculo == vehiculoId
  }

  /**
   * `Equipo.objects.filter(compartimento__vehiculo=vehiculo, activo=True)`: active
   * equipment in any compartment of the vehicle (the compartment's own `activo` is
   * not consulted).
   */
  function EquiposActivos(cs: seq<Compartimento>, es: seq<Equipo>, vehiculoId: nat): (r: seq<Equipo>)
    ensures |r| <= |es|
    ensures forall e :: e in r <==> e in es && e.activo && PerteneceA(cs, e, vehiculoId)
  {
    if es == [] then []
    else
      var rest := EquiposActivos(cs, es[1..], vehiculoId);
      assert forall e :: e in es <==> e == es[0] || e in es[1..];
      if es[0].activo && PerteneceA(cs, es[0], vehiculoId) then [es[0]] + rest else rest
  }

  /** `total_equipos`: reads only the catalog tables, so no revision can change it. */
  function TotalEquipos(cs: seq<Compartimento>, es: seq<Equipo>, vehiculoId: nat): nat {
    |EquiposActivos(cs, es, vehiculoId)|
  }

  // ---------------------------------------------------------------------------
  // estado / estados
  // ---------------------------------------------------------------------------

  /** The dictionary `estado` (and each iteration of `estados`) builds for vehicle `v`. */
  function EstadoDe(s: Store, v: Vehiculo, responsable: string): (r: EstadoEntry)
    ensures r.vehiculoId == v.id && r.codigo == v.codigo && r.nombre == v.nombre
    ensures r.totalEquipos == TotalEquipos(s.compartimentos, s.equipos, v.id)
    ensures Concuerdan(r.estado, r.equiposRevisados, r.equiposSi, r.equiposNo)
    ensures r.estado == EstadoNombre(EstadoVehiculo(s, v, responsable))
    ensures UltimaRevision(s, v, responsable).None? ==>
      && r.estado == "pendiente"
      && r.ultimaRevisionFecha.None? && r.ultimaRevisionResponsable.None?
      && r.equiposRevisados == 0 && r.equiposSi == 0 && r.equiposNo == 0
    ensures UltimaRevision(s, v, responsable).Some? ==>
      var u := UltimaRevision(s, v, responsable).value;
      && r.ultimaRevisionFecha == Some(u.fecha)
      && r.ultimaRevisionResponsable == Some(u.responsable)
      && r.equiposRevisados == |Filas(s.detalles, u.id)|
      && r.equiposSi == |FilasCon(s.detalles, u.id, Si)|
      && r.equiposNo == |FilasCon(s.detalles, u.id, No)|
    ensures responsable != "" && r.ultimaRevisionResponsable.Some? ==> r.ultimaRevisionResponsable.value == responsable
  {
    var ultima := UltimaRevision(s, v, responsable);
    var ms := if ultima.Some? then MarcasDe(s.detalles, ultima.value.id) else [];
    ReglaConcuerda(ms);
    EstadoEntry(
      v.id, v.codigo, v.nombre,
      EstadoNombre(EstadoVehiculo(s, v, responsable)),
      if ultima.Some? then Some(ultima.value.fecha) else None,
      if ultima.Some? then Some(ultima.value.responsable) else None,
      TotalEquipos(s.compartimentos, s.equipos, v.id),
      |ms|, Count(ms, Si), Count(ms, No))
  }

  /** `filter(activo=True)`: the active rows, in table order. */
  function FiltrarActivos(vs: seq<Vehiculo>): (r: seq<Vehiculo>)
    ensures |r| <= |vs|
    ensures forall v :: multiset(r)[v] == if v.activo then multiset(vs)[v] else 0
  {
    if vs == [] then []
    else
      var rest := FiltrarActivos(vs[1..]);
      assert vs == [vs[0]] + vs[1..];
      if vs[0].activo then [vs[0]] + rest else rest
  }

  /**
   * `Vehiculo.objects.filter(activo=True)` under the model's default ordering: every
   * active row once per occurrence in the table, no inactive one, sorted by code.
   */
  function Activos(vs: seq<Vehiculo>): (r: seq<Vehiculo>)
    ensures |r| <= |vs|
    ensures PorCodigo(r)
    ensures forall v :: multiset(r)[v] == if v.activo then multiset(vs)[v] else 0
    ensures forall v :: v in r <==> v in vs && v.activo
  {
    var r := OrdenarPorCodigo(FiltrarActivos(vs));
    assert |r| == |multiset(r)|;
    assert forall v :: v in r <==> v in multiset(r);
    r
  }

  /** What `estados` returns: one entry per active vehicle, in code order. */
  function EstadosDe(s: Store, responsable: string): (r: seq<EstadoEntry>)
    ensures |r| == |Activos(s.vehiculos)|
    ensures forall i :: 0 <= i < |r| ==> r[i] == EstadoDe(s, Activos(s.vehiculos)[i], responsable)
    ensures forall i, j :: 0 <= i < j < |r| ==> CodigoNoMayor(r[i].codigo, r[j].codigo)
  {
    var act := Activos(s.vehiculos);
    seq(|act|, i requires 0 <= i < |act| => EstadoDe(s, act[i], responsable))
  }

  /** The loop of `estados`: one entry per vehicle of the queryset, in turn. */
  method EstadosDeLista(s: Store, vehiculos: seq<Vehiculo>, responsable: string) returns (estados: seq<EstadoEntry>)
    ensures |estados| == |vehiculos|
    ensures forall i :: 0 <= i < |estados| ==> estados[i] == EstadoDe(s, vehiculos[i], responsable)
  {
    estados := [];
    for i := 0 to |vehiculos|
      invariant |estados| == i
      invariant forall k :: 0 <= k < i ==> estados[k] == EstadoDe(s, vehiculos[k], responsable)
    {
      estados := estados + [EstadoDe(s, vehiculos[i], responsable)];
    }
  }

  /** `VehiculoViewSet.estados`: appends one entry per active vehicle. */
  method Estados(s: Store, responsable: string) returns (estados: seq<EstadoEntry>)
    ensures |estados| == |Activos(s.vehiculos)|
    ensures forall i :: 0 <= i < |estados| ==> estados[i] == EstadoDe(s, Activos(s.vehiculos)[i], responsable)
    ensures estados == EstadosDe(s, responsable)
  {
    var vehiculos := Activos(s.vehiculos);
    estados := EstadosDeLista(s, vehiculos, responsable);
  }

  // ---------------------------------------------------------------------------
  // RevisionViewSet
  // ---------------------------------------------------------------------------

  /**
   * `get_queryset`: the revisions matching both optional filters (vehicle when
   * given, responsable when non-empty), newest first.
   */
  function Consulta(s: Store, vehiculo: Option<nat>, responsable: string): (r: seq<Revision>)
    ensures MasRecientePrimero(r)
    ensures multiset(r) == multiset(FiltrarRevisiones(s.revisiones, vehiculo, responsable))
    ensures forall q :: q in r <==>
      q in s.revisiones && (vehiculo.None? || q.vehiculo == vehiculo.value) && (responsable == "" || q.responsable == responsable)
  {
    var filtradas := FiltrarRevisiones(s.revisiones, vehiculo, responsable);
    var r := MasRecientes(filtradas);
    assert forall q :: q in r <==> q in multiset(filtradas);
    r
  }

  /** The statistics `list` adds to one listed revision. */
  datatype Anotacion = Anotacion(estadoCalculado: string, totalEquipos: nat, equiposSi: nat, equiposNo: nat)

  datatype RevisionListada = RevisionListada(revision: Revision, anotacion: Option<Anotacion>)

  /**
   * The annotation of one listed revision: skipped when its id is falsy or
   * `Revision.objects.get` finds nothing (never, for a row of the table); otherwise `calcular_estado` and the detail
   * counts (here `total_equipos` counts details, not catalog items).
   */
  function Anotar(s: Store, r: Revision): (a: Option<Anotacion>)
    ensures a.Some? ==> r.id != 0
    ensures r in s.revisiones ==> (a.Some? <==> r.id != 0)
    ensures a.Some? ==> Concuerdan(a.value.estadoCalculado, a.value.totalEquipos, a.value.equiposSi, a.value.equiposNo)
    ensures a.Some? ==> a.value.estadoCalculado == EstadoNombre(EstadoRevision(s, r))
    ensures a.Some? ==>
      && a.value.totalEquipos == |Filas(s.detalles, r.id)|
      && a.value.equiposSi == |FilasCon(s.detalles, r.id, Si)|
      && a.value.equiposNo == |FilasCon(s.detalles, r.id, No)|
  {
    if r.id == 0 then None
    else match Primero(s.revisiones, (q: Revision) => q.id == r.id)
      case None => None
      case Some(q) =>
        var ms := MarcasDe(s.detalles, q.id);
        ReglaConcuerda(ms);
        Some(Anotacion(EstadoNombre(EstadoRevision(s, q)), |ms|, Count(ms, Si), Count(ms, No)))
  }

  /** Every listed revision is a row of the table. */
  lemma ConsultaEnTabla(s: Store, vehiculo: Option<nat>, responsable: string)
    ensures forall i :: 0 <= i < |Consulta(s, vehiculo, responsable)| ==> Consulta(s, vehiculo, responsable)[i] in s.revisiones
  {
    var c := Consulta(s, vehiculo, responsable);
    forall i | 0 <= i < |c|
      ensures c[i] in s.revisiones
    {
      assert c[i] in c;
    }
  }

  /** The loop of `list`: each revision of the page annotated in turn. */
  method AnotarTodas(s: Store, revisiones: seq<Revision>) returns (items: seq<RevisionListada>)
    ensures |items| == |revisiones|
    ensures forall i :: 0 <= i < |items| ==> items[i] == RevisionListada(revisiones[i], Anotar(s, revisiones[i]))
    ensures (forall i :: 0 <= i < |revisiones| ==> revisiones[i] in s.revisiones) ==>
      forall i :: 0 <= i < |items| ==> (items[i].anotacion.Some? <==> items[i].revision.id != 0)
  {
    items := [];
    for i := 0 to |revisiones|
      invariant |items| == i
      invariant forall k :: 0 <= k < i ==> items[k] == RevisionListada(revisiones[k], Anotar(s, revisiones[k]))
    {
      items := items + [RevisionListada(revisiones[i], Anotar(s, revisiones[i]))];
    }
  }

  /** `RevisionViewSet.list`: the queryset, each element annotated. */
  method Listar(s: Store, vehiculo: Option<nat>, responsable: string) returns (items: seq<RevisionListada>)
    ensures |items| == |Consulta(s, vehiculo, responsable)|
    ensures forall i :: 0 <= i < |items| ==>
      items[i].revision == Consulta(s, vehiculo, responsable)[i] && items[i].anotacion == Anotar(s, items[i].revision)
    ensures forall i :: 0 <= i < |items| ==> (items[i].anotacion.Some? <==> items[i].revision.id != 0)
  {
    var revisiones := Consulta(s, vehiculo, responsable);
    ConsultaEnTabla(s, vehiculo, responsable);
    items := AnotarTodas(s, revisiones);
  }
}
