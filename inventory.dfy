/**
 * The inventory's data model (inventario/models.py): vehicles, their compartments
 * and equipment, reviews (`Revision`) and their per-item details
 * (`DetalleRevision`), plus the status rule `calcular_estado`.
 *
 * The database is a value holding one sequence of rows per table; `fecha` is an
 * abstract, totally ordered timestamp.
 */
module Inventory {
  import opened Wrappers

  /** The domain of `DetalleRevision.estado`: 'si', 'no' or 'pendiente' (SinMarcar). */
  datatype Marca = Si | No | SinMarcar


  /** The three values `calcular_estado` returns. */
  datatype Estado = Pendiente | Completo | Critico

  function EstadoNombre(e: Estado): (r: string)
    ensures r in {"pendiente", "completo", "critico"}
  {
    match e
    case Pendiente => "pendiente"
    case Completo => "completo"
    case Critico => "critico"
  }

  datatype Vehiculo = Vehiculo(id: nat, codigo: string, nombre: string, activo: bool)
  datatype Compartimento = Compartimento(id: nat, vehiculo: nat, nombre: string, orden: nat, activo: bool)
  datatype Equipo = Equipo(id: nat, compartimento: nat, nombre: string, cantidadEsperada: nat, orden: nat, activo: bool)
  datatype Revision = Revision(id: nat, vehiculo: nat, responsable: string, fecha: int, observacionesGenerales: string)
  datatype DetalleRevision = DetalleRevision(id: nat, revision: nat, equipo: nat, estado: Marca, observaciones: string)

  datatype Store = Store(
    vehiculos: seq<Vehiculo>,
    compartimentos: seq<Compartimento>,
    equipos: seq<Equipo>,
    revisiones: seq<Revision>,
    detalles: seq<DetalleRevision>)

  /** Primary keys: two vehicle rows with the same id are the same row. */
  ghost predicate IdsIdentifican(vs: seq<Vehiculo>) {
    forall a, b :: a in vs && b in vs && a.id == b.id ==> a == b
  }

  /** The uniqueness constraints the schema declares. */
  ghost predicate CodigosUnicos(vs: seq<Vehiculo>) {
    forall i, j :: 0 <= i < j < |vs| ==> vs[i].codigo != vs[j].codigo
  }

  ghost predicate CompartimentosUnicos(cs: seq<Compartimento>) {
    forall i, j :: 0 <= i < j < |cs| ==> cs[i].vehiculo != cs[j].vehiculo || cs[i].nombre != cs[j].nombre
  }

  ghost predicate DetallesUnicos(ds: seq<DetalleRevision>) {
    forall i, j :: 0 <= i < j < |ds| ==> ds[i].revision != ds[j].revision || ds[i].equipo != ds[j].equipo
  }

  ghost predicate Integro(s: Store) {
    && CodigosUnicos(s.vehiculos)
    && CompartimentosUnicos(s.compartimentos)
    && DetallesUnicos(s.detalles)
  }

  // ---------------------------------------------------------------------------
  // Vehicle order: `Vehiculo.Meta.ordering = ['codigo']`
  // ---------------------------------------------------------------------------

  /** Codes compare character by character, by code point; a proper prefix sorts first. */
  predicate CodigoNoMayor(a: string, b: string) {
    a == [] || (b != [] && (a[0] < b[0] || (a[0] == b[0] && CodigoNoMayor(a[1..], b[1..]))))
  }

  /** Any two codes are comparable. */
  lemma {:induction false} CodigoTotal(a: string, b: string)
    ensures CodigoNoMayor(a, b) || CodigoNoMayor(b, a)
  {
    if a != [] && b != [] && a[0] == b[0] {
      CodigoTotal(a[1..], b[1..]);
    }
  }

  lemma {:induction false} CodigoTransitivo(a: string, b: string, c: string)
    requires CodigoNoMayor(a, b) && CodigoNoMayor(b, c)
    ensures CodigoNoMayor(a, c)
  {
    if a != [] && a[0] == b[0] && b[0] == c[0] {
      CodigoTransitivo(a[1..], b[1..], c[1..]);
    }
  }

  /** Two codes that sort no later than each other are the same code. */
  lemma {:induction false} CodigoAntisimetrico(a: string, b: string)
    requires CodigoNoMayor(a, b) && CodigoNoMayor(b, a)
    ensures a == b
  {
    if a != [] {
      CodigoAntisimetrico(a[1..], b[1..]);
      assert a == [a[0]] + a[1..] && b == [b[0]] + b[1..];
    }
  }

  ghost predicate PorCodigo(vs: seq<Vehiculo>) {
    forall i, j :: 0 <= i < j < |vs| ==> CodigoNoMayor(vs[i].codigo, vs[j].codigo)
  }

  /** Inserts `v` in front of the first vehicle whose code does not sort before it. */
  function InsertarPorCodigo(v: Vehiculo, vs: seq<Vehiculo>): (out: seq<Vehiculo>)
    requires PorCodigo(vs)
    ensures PorCodigo(out)
    ensures multiset(out) == multiset(vs) + multiset{v}
  {
    if vs == [] || CodigoNoMayor(v.codigo, vs[0].codigo) then
      forall j | 0 <= j < |vs| ensures CodigoNoMayor(v.codigo, vs[j].codigo) {
        if j > 0 { CodigoTransitivo(v.codigo, vs[0].codigo, vs[j].codigo); }
      }
      [v] + vs
    else
      var rest := InsertarPorCodigo(v, vs[1..]);
      CodigoTotal(v.codigo, vs[0].codigo);
      InsertarTrasPrimero(v, vs, rest);
      [vs[0]] + rest
  }

  /** The step of InsertarPorCodigo that keeps `vs[0]` in front of the insertion into the tail. */
  lemma InsertarTrasPrimero(v: Vehiculo, vs: seq<Vehiculo>, rest: seq<Vehiculo>)
    requires vs != [] && CodigoNoMayor(vs[0].codigo, v.codigo)
    requires PorCodigo(vs) && PorCodigo(rest)
    requires multiset(rest) == multiset(vs[1..]) + multiset{v}
    ensures PorCodigo([vs[0]] + rest)
    ensures multiset([vs[0]] + rest) == multiset(vs) + multiset{v}
  {
    assert vs == [vs[0]] + vs[1..];
    forall j | 0 <= j < |rest| ensures CodigoNoMayor(vs[0].codigo, rest[j].codigo) {
      assert rest[j] in multiset(rest);
      if rest[j] != v {
        assert rest[j] in multiset(vs[1..]);
        var k :| 0 <= k < |vs[1..]| && vs[1..][k] == rest[j];
        assert vs[k + 1] == rest[j];
      }
    }
  }

  /** `order_by('codigo')`: the same vehicles, sorted by code. */
  function OrdenarPorCodigo(vs: seq<Vehiculo>): (out: seq<Vehiculo>)
    ensures PorCodigo(out)
    ensures multiset(out) == multiset(vs)
  {
    if vs == [] then []
    else
      assert vs == [vs[0]] + vs[1..];
      InsertarPorCodigo(vs[0], OrdenarPorCodigo(vs[1..]))
  }

  /** With unique codes the order is strict: a sorted fleet lists codes in increasing order. */
  lemma OrdenEstricto(vs: seq<Vehiculo>)
    requires PorCodigo(vs) && CodigosUnicos(vs)
    ensures forall i, j :: 0 <= i < j < |vs| ==> !CodigoNoMayor(vs[j].codigo, vs[i].codigo)
  {
    forall i, j | 0 <= i < j < |vs| ensures !CodigoNoMayor(vs[j].codigo, vs[i].codigo) {
      if CodigoNoMayor(vs[j].codigo, vs[i].codigo) {
        CodigoAntisimetrico(vs[i].codigo, vs[j].codigo);
      }
    }
  }

  /** The first row satisfying `p`, as Django's `get`/`first()` over a filtered table. */
  function Primero<T>(xs: seq<T>, p: T -> bool): (r: Option<T>)
    ensures r.None? <==> forall x :: x in xs ==> !p(x)
    ensures r.Some? ==> r.value in xs && p(r.value)
  {
    if xs == [] then None
    else if p(xs[0]) then Some(xs[0])
    else
      assert forall x :: x in xs ==> x == xs[0] || x in xs[1..];
      Primero(xs[1..], p)
  }

  /** A first match stays the first match when rows are appended. */
  lemma {:induction false} PrimeroPrefijo<T>(xs: seq<T>, ys: seq<T>, p: T -> bool)
    requires Primero(xs, p).Some?
    ensures Primero(xs + ys, p) == Primero(xs, p)
  {
    assert (xs + ys)[0] == xs[0];
    if !p(xs[0]) {
      assert (xs + ys)[1..] == xs[1..] + ys;
      PrimeroPrefijo(xs[1..], ys, p);
    }
  }

  // ---------------------------------------------------------------------------
  // Counting marks
  // ---------------------------------------------------------------------------

  /** How many of `ms` equal `m` (`detalles.filter(estado=m).count()`). */
  function Count(ms: seq<Marca>, m: Marca): (r: nat)
    ensures r <= |ms|
    ensures r == 0 <==> m !in ms
    ensures r == |ms| <==> forall i :: 0 <= i < |ms| ==> ms[i] == m
  {
    if ms == [] then 0
    else Count(ms[..|ms| - 1], m) + (if ms[|ms| - 1] == m then 1 else 0)
  }

  lemma {:induction false} CountAppend(a: seq<Marca>, b: seq<Marca>, m: Marca)
    ensures Count(a + b, m) == Count(a, m) + Count(b, m)
  {
    if b != [] {
      assert (a + b)[..|a + b| - 1] == a + b[..|b| - 1];
      CountAppend(a, b[..|b| - 1], m);
    } else {
      assert a + b == a;
    }
  }

  /** The three marks partition the details: si + no + pendiente = all. */
  lemma {:induction false} CountPartition(ms: seq<Marca>)
    ensures Count(ms, Si) + Count(ms, No) + Count(ms, SinMarcar) == |ms|
  {
    if ms != [] {
      CountPartition(ms[..|ms| - 1]);
    }
  }

  // ---------------------------------------------------------------------------
  // The status rule
  // ---------------------------------------------------------------------------

  /**
   * The rule shared by `Vehiculo.calcular_estado` and `Revision.calcular_estado`,
   * written as the source branches: no details, then any 'no', then all 'si'.
   */
  function EstadoDeMarcas(ms: seq<Marca>): (r: Estado)
    ensures r == Critico <==> No in ms
    ensures r == Completo <==> ms != [] && forall i :: 0 <= i < |ms| ==> ms[i] == Si
    ensures r == Pendiente <==> ms == [] || (No !in ms && SinMarcar in ms)
  {
    if ms == [] then Pendiente
    else if No in ms then Critico
    else if Count(ms, Si) == |ms| then Completo
    else Pendiente
  }

  /** The rows of `ds` that are details of revision `revisionId`, by position. */
  ghost function Filas(ds: seq<DetalleRevision>, revisionId: nat): set<int> {
    set i | 0 <= i < |ds| && ds[i].revision == revisionId
  }

  /** The rows of `ds` that are details of revision `revisionId` marked `m`, by position. */
  ghost function FilasCon(ds: seq<DetalleRevision>, revisionId: nat, m: Marca): set<int> {
    set i | 0 <= i < |ds| && ds[i].revision == revisionId && ds[i].estado == m
  }

  /**
   * The marks of the details of revision `revisionId`, in table order
   * (`detalles_revision.all()`): one mark per detail row of the revision, so every
   * `filter(estado=m).count()` counts exactly the rows marked `m`.
   */
  function MarcasDe(ds: seq<DetalleRevision>, revisionId: nat): (r: seq<Marca>)
    ensures |r| <= |ds|
    ensures |r| == |Filas(ds, revisionId)|
    ensures forall m :: Count(r, m) == |FilasCon(ds, revisionId, m)|
    ensures forall m :: m in r <==> exists d :: d in ds && d.revision == revisionId && d.estado == m
  {
    if ds == [] then []
    else
      var init := MarcasDe(ds[..|ds| - 1], revisionId);
      var d := ds[|ds| - 1];
      assert forall x :: x in ds <==> x in ds[..|ds| - 1] || x == d;
      FilasSinUltima(ds, revisionId);
      if d.revision == revisionId then
        assert (init + [d.estado])[..|init|] == init;
        init + [d.estado]
      else init
  }

  /** Dropping the last row of `ds` drops at most that row's position from each set of rows. */
  lemma FilasSinUltima(ds: seq<DetalleRevision>, revisionId: nat)
    requires ds != []
    ensures var n := |ds| - 1;
      && Filas(ds, revisionId) == Filas(ds[..n], revisionId) + (if ds[n].revision == revisionId then {n} else {})
      && n !in Filas(ds[..n], revisionId)
    ensures var n := |ds| - 1; forall m ::
      && FilasCon(ds, revisionId, m)
         == FilasCon(ds[..n], revisionId, m) + (if ds[n].revision == revisionId && ds[n].estado == m then {n} else {})
      && n !in FilasCon(ds[..n], revisionId, m)
  {
  }

  /** `Revision.calcular_estado`. */
  function EstadoRevision(s: Store, r: Revision): Estado {
    EstadoDeMarcas(MarcasDe(s.detalles, r.id))
  }

  // ---------------------------------------------------------------------------
  // Selecting the latest revision
  // ---------------------------------------------------------------------------

  /**
   * `Revision.objects.filter(vehiculo=…, responsable=…)`: the vehicle filter applies
   * when an id is given, the responsable filter only when it is non-empty (truthy).
   */
  function FiltrarRevisiones(rs: seq<Revision>, vehiculo: Option<nat>, responsable: string): (r: seq<Revision>)
    ensures |r| <= |rs|
    ensures forall q :: q in r <==>
      q in rs && (vehiculo.None? || q.vehiculo == vehiculo.value) && (responsable == "" || q.responsable == responsable)
    ensures multiset(r) <= multiset(rs)
  {
    if rs == [] then []
    else
      var rest := FiltrarRevisiones(rs[1..], vehiculo, responsable);
      assert rs == [rs[0]] + rs[1..];
      if (vehiculo.None? || rs[0].vehiculo == vehiculo.value) && (responsable == "" || rs[0].responsable == responsable)
      then [rs[0]] + rest
      else rest
  }

  ghost predicate MasRecientePrimero(rs: seq<Revision>) {
    forall i, j :: 0 <= i < j < |rs| ==> rs[j].fecha <= rs[i].fecha
  }

  /** Inserts `r` in front of every revision no newer than it. */
  function InsertarPorFecha(r: Revision, rs: seq<Revision>): (out: seq<Revision>)
    requires MasRecientePrimero(rs)
    ensures MasRecientePrimero(out)
    ensures multiset(out) == multiset(rs) + multiset{r}
  {
    if rs == [] || rs[0].fecha <= r.fecha then [r] + rs
    else
      var rest := InsertarPorFecha(r, rs[1..]);
      InsertarDetras(r, rs, rest);
      [rs[0]] + rest
  }

  /** The step of InsertarPorFecha that keeps `rs[0]` in front of the insertion into the tail. */
  lemma InsertarDetras(r: Revision, rs: seq<Revision>, rest: seq<Revision>)
    requires rs != [] && r.fecha < rs[0].fecha
    requires MasRecientePrimero(rs) && MasRecientePrimero(rest)
    requires multiset(rest) == multiset(rs[1..]) + multiset{r}
    ensures MasRecientePrimero([rs[0]] + rest)
    ensures multiset([rs[0]] + rest) == multiset(rs) + multiset{r}
  {
    assert rs == [rs[0]] + rs[1..];
    forall j | 0 <= j < |rest| ensures rest[j].fecha <= rs[0].fecha {
      assert rest[j] in multiset(rest);
      if rest[j] != r {
        assert rest[j] in multiset(rs[1..]);
        var k :| 0 <= k < |rs[1..]| && rs[1..][k] == rest[j];
        assert rs[k + 1] == rest[j];
      }
    }
  }

  /** `order_by('-fecha')`: newest first; revisions with equal fecha keep their table order. */
  function MasRecientes(rs: seq<Revision>): (out: seq<Revision>)
    ensures MasRecientePrimero(out)
    ensures multiset(out) == multiset(rs)
  {
    if rs == [] then []
    else
      assert rs == [rs[0]] + rs[1..];
      InsertarPorFecha(rs[0], MasRecientes(rs[1..]))
  }

  /** `.order_by('-fecha').first()`: the newest revision, or None when there is none. */
  function Ultima(rs: seq<Revision>): (r: Option<Revision>)
    ensures r.None? <==> rs == []
    ensures r.Some? ==> r.value in rs && forall q :: q in rs ==> q.fecha <= r.value.fecha
  {
    var sorted := MasRecientes(rs);
    if sorted == [] then
      assert multiset(rs) == multiset{};
      None
    else
      assert sorted[0] in multiset(rs);
      assert forall q :: q in rs ==> q.fecha <= sorted[0].fecha by {
        forall q | q in rs ensures q.fecha <= sorted[0].fecha {
          assert q in multiset(sorted);
          var k :| 0 <= k < |sorted| && sorted[k] == q;
        }
      }
      Some(sorted[0])
  }

  /** The revision `Vehiculo.calcular_estado(responsable)` inspects. */
  function UltimaRevision(s: Store, v: Vehiculo, responsable: string): (r: Option<Revision>)
    ensures r.None? <==> forall q :: q in s.revisiones ==> q.vehiculo != v.id || (responsable != "" && q.responsable != responsable)
    ensures r.Some? ==> r.value in s.revisiones && r.value.vehiculo == v.id
    ensures r.Some? && responsable != "" ==> r.value.responsable == responsable
    ensures r.Some? ==> forall q :: q in s.revisiones && q.vehiculo == v.id && (responsable == "" || q.responsable == responsable)
                                    ==> q.fecha <= r.value.fecha
  {
    var candidatas := FiltrarRevisiones(s.revisiones, Some(v.id), responsable);
    assert candidatas != [] ==> candidatas[0] in candidatas;
    Ultima(candidatas)
  }

  /** `Vehiculo.calcular_estado(responsable)`: pending without a revision, else the latest one's status. */
  function EstadoVehiculo(s: Store, v: Vehiculo, responsable: string): Estado
  {
    match UltimaRevision(s, v, responsable)
    case None => Pendiente
    case Some(ultima) => EstadoRevision(s, ultima)
  }
}
