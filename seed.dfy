/**
 * The seeding script (manage_seed.py): creates the fleet, the compartments of
 * each seeded vehicle and a sample list of equipment in every compartment, using
 * get-or-create so that running it again adds nothing.
 */
module Seed {
  import opened Wrappers
  import opened Inventory

  datatype DatosVehiculo = DatosVehiculo(codigo: string, nombre: string)
  datatype DatosCompartimento = DatosCompartimento(nombre: string, orden: nat)
  datatype DatosEquipo = DatosEquipo(nombre: string, cantidadEsperada: nat, orden: nat)

  const VehiculosIniciales: seq<DatosVehiculo> := [
    DatosVehiculo("PMH-01", "Ambulancia PMH-01"),
    DatosVehiculo("PMH-02", "Ambulancia PMH-02"),
    DatosVehiculo("PMH-03", "Ambulancia PMH-03"),
    DatosVehiculo("ABI-02", "Autobomba ABI-02"),
    DatosVehiculo("ATI-01", "Autobomba Tanque ATI-01"),
    DatosVehiculo("UFI-01", "Unidad de Fumigación UFI-01")
  ]

  const CompartimentosAmbulancia: seq<DatosCompartimento> := [
    DatosCompartimento("Compartimento Izquierdo", 1),
    DatosCompartimento("Compartimento Derecho Delantero", 2),
    DatosCompartimento("Compartimento Derecho Trasero", 3),
    DatosCompartimento("Compartimento Interior", 4)
  ]

  const CompartimentosAutobomba: seq<DatosCompartimento> := [
    DatosCompartimento("Compartimento Lateral Izquierdo", 1),
    DatosCompartimento("Compartimento Lateral Derecho", 2),
    DatosCompartimento("Compartimento Trasero", 3)
  ]

  const CompartimentosFumigacion: seq<DatosCompartimento> := [
    DatosCompartimento("Compartimento Principal", 1),
    DatosCompartimento("Compartimento Secundario", 2)
  ]

  /** The compartments per vehicle code, in the order the script's dictionary lists them. */
  const CompartimentosIniciales: seq<(string, seq<DatosCompartimento>)> := [
    ("PMH-01", CompartimentosAmbulancia),
    ("PMH-02", CompartimentosAmbulancia),
    ("PMH-03", CompartimentosAmbulancia),
    ("ABI-02", CompartimentosAutobomba),
    ("ATI-01", CompartimentosAutobomba),
    ("UFI-01", CompartimentosFumigacion)
  ]

  /** The sample equipment put into every compartment of every vehicle. */
  const EquiposEjemplo: seq<DatosEquipo> := [
    DatosEquipo("Manguera 50mm", 2, 1),
    DatosEquipo("Manguera 38mm", 4, 2),
    DatosEquipo("Lanza de agua", 2, 3),
    DatosEquipo("Extintor ABC 5kg", 2, 4),
    DatosEquipo("Extintor ABC 10kg", 1, 5),
    DatosEquipo("Hacha", 1, 6),
    DatosEquipo("Pala", 1, 7),
    DatosEquipo("Casco", 4, 8),
    DatosEquipo("Guantes", 4, 9),
    DatosEquipo("Botas", 2, 10)
  ]

  // ---------------------------------------------------------------------------
  // Lookup keys and get-or-create
  // ---------------------------------------------------------------------------

  function CodigoDe(v: Vehiculo): string { v.codigo }
  function IdVehiculo(v: Vehiculo): nat { v.id }
  function ClaveCompartimento(c: Compartimento): (nat, string) { (c.vehiculo, c.nombre) }
  function IdCompartimento(c: Compartimento): nat { c.id }
  function ClaveEquipo(e: Equipo): (nat, string) { (e.compartimento, e.nombre) }
  function IdEquipo(e: Equipo): nat { e.id }

  /** No two rows share a key. */
  ghost predicate Unicos<T, K>(xs: seq<T>, clave: T -> K) {
    forall i, j :: 0 <= i < j < |xs| ==> clave(xs[i]) != clave(xs[j])
  }

  /** The keys present in a table. */
  ghost function Claves<T, K>(xs: seq<T>, clave: T -> K): set<K> {
    set i | 0 <= i < |xs| :: clave(xs[i])
  }

  /** Table rows are only ever appended: the old table is a prefix of the new one. */
  ghost predicate Extiende<T>(antes: seq<T>, despues: seq<T>) {
    |antes| <= |despues| && despues[..|antes|] == antes
  }

  /** Cutting one more element and then the last one off gives the shorter prefix. */
  lemma PrefijoSigue<T>(s: seq<T>, k: nat)
    requires k < |s|
    ensures s[..k + 1][..k] == s[..k]
    ensures s[..k + 1] == s[..k] + [s[k]]
  {
    assert s[..k + 1][..k] == s[..k];
  }

  lemma ExtiendeTrans<T>(a: seq<T>, b: seq<T>, c: seq<T>)
    requires Extiende(a, b) && Extiende(b, c)
    ensures Extiende(a, c)
  {
    assert c[..|a|] == c[..|b|][..|a|];
  }

  lemma ExtiendeContiene<T>(a: seq<T>, b: seq<T>)
    requires Extiende(a, b)
    ensures forall x :: x in a ==> x in b
  {
    forall x | x in a
      ensures x in b
    {
      var i :| 0 <= i < |a| && a[i] == x;
      assert b[..|a|][i] == b[i];
    }
  }

  /**
   * `despues` is `antes` with rows appended: its keys are those of `antes` plus
   * `pedidas`, key and id uniqueness survive, and every appended row brings a new key.
   */
  ghost predicate Crece<T, K>(antes: seq<T>, despues: seq<T>, clave: T -> K, id: T -> nat, pedidas: set<K>) {
    && Extiende(antes, despues)
    && Claves(despues, clave) == Claves(antes, clave) + pedidas
    && (Unicos(antes, clave) ==> Unicos(despues, clave))
    && (Unicos(antes, id) ==> Unicos(despues, id))
    && (despues == antes || Claves(antes, clave) < Claves(despues, clave))
  }

  /** Two growth steps make one, asking for the keys of both. */
  lemma CreceTrans<T, K>(a: seq<T>, b: seq<T>, c: seq<T>, clave: T -> K, id: T -> nat, p: set<K>, q: set<K>)
    requires Crece(a, b, clave, id, p) && Crece(b, c, clave, id, q)
    ensures Crece(a, c, clave, id, p + q)
  {
    ExtiendeTrans(a, b, c);
  }

  /** A get-or-create run that asked only for keys already present added no row. */
  lemma SinClavesNuevas<T, K>(a: seq<T>, b: seq<T>, clave: T -> K, id: T -> nat, pedidas: set<K>)
    requires Crece(a, b, clave, id, pedidas)
    requires pedidas <= Claves(a, clave)
    ensures b == a
  {
  }

  /** A fresh primary key: one more than the largest in use. */
  function SiguienteId<T>(xs: seq<T>, id: T -> nat): (r: nat)
    ensures r >= 1
    ensures forall i :: 0 <= i < |xs| ==> id(xs[i]) < r
  {
    if xs == [] then 1
    else
      var r0 := SiguienteId(xs[1..], id);
      assert forall i :: 1 <= i < |xs| ==> xs[i] == xs[1..][i - 1];
      if id(xs[0]) + 1 > r0 then id(xs[0]) + 1 else r0
  }

  /** Appending a row with a fresh key and a larger id is growth by that key. */
  lemma AnadirCrece<T, K>(xs: seq<T>, clave: T -> K, id: T -> nat, nuevo: T)
    requires forall i :: 0 <= i < |xs| ==> id(xs[i]) < id(nuevo)
    requires clave(nuevo) !in Claves(xs, clave)
    ensures Crece(xs, xs + [nuevo], clave, id, {clave(nuevo)})
  {
    var ys := xs + [nuevo];
    assert forall i :: 0 <= i < |xs| ==> xs[i] in xs && ys[i] == xs[i];
    assert Claves(ys, clave) == Claves(xs, clave) + {clave(ys[|xs|])};
    assert ys[..|xs|] == xs;
  }

  /**
   * Django's `get_or_create`, looked up by `clave`: the first row with the key of
   * `nuevo`, or `nuevo` appended when there is none.
   */
  method ObtenerOCrear<T, K(==)>(xs: seq<T>, clave: T -> K, id: T -> nat, nuevo: T)
    returns (xs': seq<T>, x: T, creado: bool)
    requires forall i :: 0 <= i < |xs| ==> id(xs[i]) < id(nuevo)
    ensures clave(x) == clave(nuevo) && x in xs'
    ensures creado <==> clave(nuevo) !in Claves(xs, clave)
    ensures creado ==> xs' == xs + [nuevo] && x == nuevo
    ensures !creado ==> xs' == xs
    ensures Crece(xs, xs', clave, id, {clave(nuevo)})
  {
    var hallado := Primero(xs, (y: T) => clave(y) == clave(nuevo));
    if hallado.Some? {
      xs', x, creado := xs, hallado.value, false;
      ghost var i :| 0 <= i < |xs| && xs[i] == x;
      assert clave(xs[i]) in Claves(xs, clave);
    } else {
      xs', x, creado := xs + [nuevo], nuevo, true;
      assert forall i :: 0 <= i < |xs| ==> xs[i] in xs;
      assert clave(nuevo) !in Claves(xs, clave);
      AnadirCrece(xs, clave, id, nuevo);
    }
  }

  // ---------------------------------------------------------------------------
  // Vehicles
  // ---------------------------------------------------------------------------

  function CodigosDe(datos: seq<DatosVehiculo>): set<string> {
    if datos == [] then {} else CodigosDe(datos[..|datos| - 1]) + {datos[|datos| - 1].codigo}
  }

  /** Each recorded vehicle is a row of `vs` carrying the code it is recorded under. */
  ghost predicate Registrados(creados: map<string, Vehiculo>, vs: seq<Vehiculo>) {
    forall c :: c in creados ==> creados[c] in vs && creados[c].codigo == c
  }

  /** One pass of the first loop: get-or-create the vehicle `d` and record it under its code. */
  method CrearVehiculo(vs: seq<Vehiculo>, creados: map<string, Vehiculo>, d: DatosVehiculo)
    returns (vs': seq<Vehiculo>, creados': map<string, Vehiculo>)
    requires Registrados(creados, vs)
    ensures Crece(vs, vs', CodigoDe, IdVehiculo, {d.codigo})
    ensures creados'.Keys == creados.Keys + {d.codigo}
    ensures Registrados(creados', vs')
  {
    var nuevo := Vehiculo(SiguienteId(vs, IdVehiculo), d.codigo, d.nombre, true);
    var v, creado;
    vs', v, creado := ObtenerOCrear(vs, CodigoDe, IdVehiculo, nuevo);
    ExtiendeContiene(vs, vs');
    creados' := creados[d.codigo := v];
  }

  /** The first loop: get-or-create each vehicle by code, remembering the row per code. */
  method CrearVehiculos(vs: seq<Vehiculo>, datos: seq<DatosVehiculo>)
    returns (vs': seq<Vehiculo>, creados: map<string, Vehiculo>)
    ensures Crece(vs, vs', CodigoDe, IdVehiculo, CodigosDe(datos))
    ensures creados.Keys == CodigosDe(datos)
    ensures Registrados(creados, vs')
    ensures CodigosDe(datos) <= Claves(vs, CodigoDe) ==> vs' == vs
  {
    vs', creados := vs, map[];
    for k := 0 to |datos|
      invariant Crece(vs, vs', CodigoDe, IdVehiculo, CodigosDe(datos[..k]))
      invariant creados.Keys == CodigosDe(datos[..k])
      invariant Registrados(creados, vs')
    {
      var antes := vs';
      vs', creados := CrearVehiculo(vs', creados, datos[k]);
      CreceTrans(vs, antes, vs', CodigoDe, IdVehiculo, CodigosDe(datos[..k]), {datos[k].codigo});
      PrefijoSigue(datos, k);
    }
    assert datos[..|datos|] == datos;
    if CodigosDe(datos) <= Claves(vs, CodigoDe) {
      SinClavesNuevas(vs, vs', CodigoDe, IdVehiculo, CodigosDe(datos));
    }
  }

  // ---------------------------------------------------------------------------
  // Compartments
  // ---------------------------------------------------------------------------

  /** The compartment keys a list of compartment data asks for, on vehicle `vid`. */
  function ClavesLista(vid: nat, lista: seq<DatosCompartimento>): set<(nat, string)> {
    if lista == [] then {} else ClavesLista(vid, lista[..|lista| - 1]) + {(vid, lista[|lista| - 1].nombre)}
  }

  /** The inner loop of the second step: the compartments of one vehicle. */
  method CrearCompartimentosDe(cs: seq<Compartimento>, vid: nat, lista: seq<DatosCompartimento>)
    returns (cs': seq<Compartimento>)
    ensures Crece(cs, cs', ClaveCompartimento, IdCompartimento, ClavesLista(vid, lista))
  {
    cs' := cs;
    for j := 0 to |lista|
      invariant Crece(cs, cs', ClaveCompartimento, IdCompartimento, ClavesLista(vid, lista[..j]))
    {
      var antes := cs';
      var nuevo := Compartimento(SiguienteId(cs', IdCompartimento), vid, lista[j].nombre, lista[j].orden, true);
      var c, creado;
      cs', c, creado := ObtenerOCrear(cs', ClaveCompartimento, IdCompartimento, nuevo);
      CreceTrans(cs, antes, cs', ClaveCompartimento, IdCompartimento, ClavesLista(vid, lista[..j]), {(vid, lista[j].nombre)});
      PrefijoSigue(lista, j);
    }
    assert lista[..|lista|] == lista;
  }

  /** Every compartment key the second step asks for, with the vehicles of the first step. */
  function ClavesSembradas(creados: map<string, Vehiculo>, datos: seq<(string, seq<DatosCompartimento>)>): set<(nat, string)>
    requires forall k :: 0 <= k < |datos| ==> datos[k].0 in creados
  {
    if datos == [] then {}
    else
      var u := datos[|datos| - 1];
      ClavesSembradas(creados, datos[..|datos| - 1]) + ClavesLista(creados[u.0].id, u.1)
  }

  lemma {:induction false} SembradasContiene(creados: map<string, Vehiculo>, datos: seq<(string, seq<DatosCompartimento>)>, k: nat)
    requires forall k :: 0 <= k < |datos| ==> datos[k].0 in creados
    requires k < |datos|
    ensures ClavesLista(creados[datos[k].0].id, datos[k].1) <= ClavesSembradas(creados, datos)
    decreases |datos|
  {
    if k < |datos| - 1 {
      var ini := datos[..|datos| - 1];
      assert ini[k] == datos[k];
      SembradasContiene(creados, ini, k);
    }
  }

  /** The second step: get-or-create every listed compartment of every listed vehicle. */
  method CrearCompartimentos(cs: seq<Compartimento>, creados: map<string, Vehiculo>, datos: seq<(string, seq<DatosCompartimento>)>)
    returns (cs': seq<Compartimento>)
    requires forall k :: 0 <= k < |datos| ==> datos[k].0 in creados
    ensures Crece(cs, cs', ClaveCompartimento, IdCompartimento, ClavesSembradas(creados, datos))
    ensures ClavesSembradas(creados, datos) <= Claves(cs, ClaveCompartimento) ==> cs' == cs
  {
    cs' := cs;
    for k := 0 to |datos|
      invariant Crece(cs, cs', ClaveCompartimento, IdCompartimento, ClavesSembradas(creados, datos[..k]))
    {
      var antes := cs';
      var u := datos[k];
      cs' := CrearCompartimentosDe(cs', creados[u.0].id, u.1);
      CreceTrans(cs, antes, cs', ClaveCompartimento, IdCompartimento, ClavesSembradas(creados, datos[..k]), ClavesLista(creados[u.0].id, u.1));
      PrefijoSigue(datos, k);
    }
    assert datos[..|datos|] == datos;
    if ClavesSembradas(creados, datos) <= Claves(cs, ClaveCompartimento) {
      SinClavesNuevas(cs, cs', ClaveCompartimento, IdCompartimento, ClavesSembradas(creados, datos));
    }
  }

  // ---------------------------------------------------------------------------
  // Equipment
  // ---------------------------------------------------------------------------

  function ClavesEjemplo(cid: nat, ejemplos: seq<DatosEquipo>): set<(nat, string)> {
    if ejemplos == [] then {} else ClavesEjemplo(cid, ejemplos[..|ejemplos| - 1]) + {(cid, ejemplos[|ejemplos| - 1].nombre)}
  }

  /** The innermost loop: every sample item in one compartment; `total` counts the rows created. */
  method CrearEquiposDe(es: seq<Equipo>, cid: nat, ejemplos: seq<DatosEquipo>)
    returns (es': seq<Equipo>, total: nat)
    ensures Crece(es, es', ClaveEquipo, IdEquipo, ClavesEjemplo(cid, ejemplos))
    ensures total == |es'| - |es|
  {
    es', total := es, 0;
    for j := 0 to |ejemplos|
      invariant Crece(es, es', ClaveEquipo, IdEquipo, ClavesEjemplo(cid, ejemplos[..j]))
      invariant total == |es'| - |es|
    {
      var antes := es';
      var d := ejemplos[j];
      var nuevo := Equipo(SiguienteId(es', IdEquipo), cid, d.nombre, d.cantidadEsperada, d.orden, true);
      var e, creado;
      es', e, creado := ObtenerOCrear(es', ClaveEquipo, IdEquipo, nuevo);
      if creado {
        total := total + 1;
      }
      CreceTrans(es, antes, es', ClaveEquipo, IdEquipo, ClavesEjemplo(cid, ejemplos[..j]), {(cid, d.nombre)});
      PrefijoSigue(ejemplos, j);
    }
    assert ejemplos[..|ejemplos|] == ejemplos;
  }

  /** The sample keys for the compartments of `cs` that belong to vehicle `vid`. */
  function ClavesDeVehiculo(cs: seq<Compartimento>, vid: nat, ejemplos: seq<DatosEquipo>): set<(nat, string)> {
    if cs == [] then {}
    else
      var u := cs[|cs| - 1];
      ClavesDeVehiculo(cs[..|cs| - 1], vid, ejemplos) + (if u.vehiculo == vid then ClavesEjemplo(u.id, ejemplos) else {})
  }

  /** The sample keys for every compartment of every vehicle in `vs`. */
  function ClavesFlota(vs: seq<Vehiculo>, cs: seq<Compartimento>, ejemplos: seq<DatosEquipo>): set<(nat, string)> {
    if vs == [] then {}
    else ClavesFlota(vs[..|vs| - 1], cs, ejemplos) + ClavesDeVehiculo(cs, vs[|vs| - 1].id, ejemplos)
  }

  /** The middle loop: `vehiculo.compartimentos.all()`, i.e. every compartment of `vid`. */
  method CrearEquiposDeVehiculo(es: seq<Equipo>, cs: seq<Compartimento>, vid: nat, ejemplos: seq<DatosEquipo>)
    returns (es': seq<Equipo>, total: nat)
    ensures Crece(es, es', ClaveEquipo, IdEquipo, ClavesDeVehiculo(cs, vid, ejemplos))
    ensures total == |es'| - |es|
  {
    es', total := es, 0;
    for k := 0 to |cs|
      invariant Crece(es, es', ClaveEquipo, IdEquipo, ClavesDeVehiculo(cs[..k], vid, ejemplos))
      invariant total == |es'| - |es|
    {
      PrefijoSigue(cs, k);
      if cs[k].vehiculo == vid {
        var antes := es';
        var t;
        es', t := CrearEquiposDe(es', cs[k].id, ejemplos);
        total := total + t;
        CreceTrans(es, antes, es', ClaveEquipo, IdEquipo, ClavesDeVehiculo(cs[..k], vid, ejemplos), ClavesEjemplo(cs[k].id, ejemplos));
      }
    }
    assert cs[..|cs|] == cs;
  }

  /** The third step: every sample item in every compartment of every vehicle in the table. */
  method CrearEquipos(es: seq<Equipo>, vs: seq<Vehiculo>, cs: seq<Compartimento>, ejemplos: seq<DatosEquipo>)
    returns (es': seq<Equipo>, total: nat)
    ensures Crece(es, es', ClaveEquipo, IdEquipo, ClavesFlota(vs, cs, ejemplos))
    ensures total == |es'| - |es|
    ensures ClavesFlota(vs, cs, ejemplos) <= Claves(es, ClaveEquipo) ==> es' == es
  {
    es', total := es, 0;
    for i := 0 to |vs|
      invariant Crece(es, es', ClaveEquipo, IdEquipo, ClavesFlota(vs[..i], cs, ejemplos))
      invariant total == |es'| - |es|
    {
      var antes := es';
      var t;
      es', t := CrearEquiposDeVehiculo(es', cs, vs[i].id, ejemplos);
      total := total + t;
      CreceTrans(es, antes, es', ClaveEquipo, IdEquipo, ClavesFlota(vs[..i], cs, ejemplos), ClavesDeVehiculo(cs, vs[i].id, ejemplos));
      PrefijoSigue(vs, i);
    }
    assert vs[..|vs|] == vs;
    if ClavesFlota(vs, cs, ejemplos) <= Claves(es, ClaveEquipo) {
      SinClavesNuevas(es, es', ClaveEquipo, IdEquipo, ClavesFlota(vs, cs, ejemplos));
    }
  }

  // ---------------------------------------------------------------------------
  // Coverage lemmas
  // ---------------------------------------------------------------------------

  lemma {:induction false} DeVehiculoCubre(cs: seq<Compartimento>, vid: nat, ejemplos: seq<DatosEquipo>, i: nat)
    requires i < |cs| && cs[i].vehiculo == vid
    ensures ClavesEjemplo(cs[i].id, ejemplos) <= ClavesDeVehiculo(cs, vid, ejemplos)
    decreases |cs|
  {
    if i < |cs| - 1 {
      var ini := cs[..|cs| - 1];
      assert ini[i] == cs[i];
      DeVehiculoCubre(ini, vid, ejemplos, i);
    }
  }

  lemma {:induction false} FlotaCubre(vs: seq<Vehiculo>, cs: seq<Compartimento>, ejemplos: seq<DatosEquipo>, i: nat)
    requires i < |cs| && cs[i].vehiculo in Claves(vs, IdVehiculo)
    ensures ClavesEjemplo(cs[i].id, ejemplos) <= ClavesFlota(vs, cs, ejemplos)
    decreases |vs|
  {
    var j :| 0 <= j < |vs| && vs[j].id == cs[i].vehiculo;
    if j == |vs| - 1 {
      DeVehiculoCubre(cs, vs[j].id, ejemplos, i);
    } else {
      var ini := vs[..|vs| - 1];
      assert ini[j] == vs[j];
      assert IdVehiculo(ini[j]) in Claves(ini, IdVehiculo);
      FlotaCubre(ini, cs, ejemplos, i);
    }
  }

  lemma {:induction false} DeVehiculoDentro(cs: seq<Compartimento>, vid: nat, ejemplos: seq<DatosEquipo>, k: set<(nat, string)>)
    requires forall i :: 0 <= i < |cs| && cs[i].vehiculo == vid ==> ClavesEjemplo(cs[i].id, ejemplos) <= k
    ensures ClavesDeVehiculo(cs, vid, ejemplos) <= k
    decreases |cs|
  {
    if cs != [] {
      var ini := cs[..|cs| - 1];
      assert forall i :: 0 <= i < |ini| ==> ini[i] == cs[i];
      DeVehiculoDentro(ini, vid, ejemplos, k);
    }
  }

  lemma {:induction false} FlotaDentro(vs: seq<Vehiculo>, cs: seq<Compartimento>, ejemplos: seq<DatosEquipo>, k: set<(nat, string)>)
    requires forall i :: 0 <= i < |cs| && cs[i].vehiculo in Claves(vs, IdVehiculo) ==> ClavesEjemplo(cs[i].id, ejemplos) <= k
    ensures ClavesFlota(vs, cs, ejemplos) <= k
    decreases |vs|
  {
    if vs != [] {
      var ini := vs[..|vs| - 1];
      assert forall j :: 0 <= j < |ini| ==> ini[j] == vs[j];
      assert Claves(ini, IdVehiculo) <= Claves(vs, IdVehiculo);
      FlotaDentro(ini, cs, ejemplos, k);
      assert IdVehiculo(vs[|vs| - 1]) in Claves(vs, IdVehiculo);
      DeVehiculoDentro(cs, vs[|vs| - 1].id, ejemplos, k);
    }
  }

  lemma {:induction false} SembradasDentro(creados: map<string, Vehiculo>, datos: seq<(string, seq<DatosCompartimento>)>, k: set<(nat, string)>)
    requires forall j :: 0 <= j < |datos| ==> datos[j].0 in creados
    requires forall j :: 0 <= j < |datos| ==> ClavesLista(creados[datos[j].0].id, datos[j].1) <= k
    ensures ClavesSembradas(creados, datos) <= k
    decreases |datos|
  {
    if datos != [] {
      var ini := datos[..|datos| - 1];
      assert forall j :: 0 <= j < |ini| ==> ini[j] == datos[j];
      SembradasDentro(creados, ini, k);
    }
  }

  /** Two rows of a table whose keys are unique are the same row when their keys agree. */
  lemma UnicoPorClave<T, K>(xs: seq<T>, clave: T -> K, a: T, b: T)
    requires Unicos(xs, clave) && a in xs && b in xs && clave(a) == clave(b)
    ensures a == b
  {
    var i :| 0 <= i < |xs| && xs[i] == a;
    var j :| 0 <= j < |xs| && xs[j] == b;
    assert !(i < j) && !(j < i);
  }

  /** The schema's uniqueness constraints, in terms of the lookup keys. */
  lemma RestriccionesComoClaves(s: Store)
    ensures CodigosUnicos(s.vehiculos) <==> Unicos(s.vehiculos, CodigoDe)
    ensures CompartimentosUnicos(s.compartimentos) <==> Unicos(s.compartimentos, ClaveCompartimento)
  {
  }

  lemma {:induction false} CodigosDeContiene(datos: seq<DatosVehiculo>, i: nat)
    requires i < |datos|
    ensures datos[i].codigo in CodigosDe(datos)
    decreases |datos|
  {
    if i < |datos| - 1 {
      var ini := datos[..|datos| - 1];
      assert ini[i] == datos[i];
      CodigosDeContiene(ini, i);
    }
  }

  /** Every code the compartment list names is one of the seeded vehicles. */
  lemma CodigosIniciales()
    ensures forall k :: 0 <= k < |CompartimentosIniciales| ==> CompartimentosIniciales[k].0 in CodigosDe(VehiculosIniciales)
  {
    forall k | 0 <= k < |CompartimentosIniciales|
      ensures CompartimentosIniciales[k].0 in CodigosDe(VehiculosIniciales)
    {
      assert CompartimentosIniciales[k].0 == VehiculosIniciales[k].codigo;
      CodigosDeContiene(VehiculosIniciales, k);
    }
  }

  // ---------------------------------------------------------------------------
  // The whole script
  // ---------------------------------------------------------------------------

  /** Every compartment of every vehicle in the store holds every sample item. */
  ghost predicate EquiposCompletos(s: Store) {
    forall i :: 0 <= i < |s.compartimentos| && s.compartimentos[i].vehiculo in Claves(s.vehiculos, IdVehiculo) ==>
      ClavesEjemplo(s.compartimentos[i].id, EquiposEjemplo) <= Claves(s.equipos, ClaveEquipo)
  }

  /** Every vehicle carrying a seeded code has that code's compartments. */
  ghost predicate CompartimentosCompletos(s: Store) {
    forall k, v :: 0 <= k < |CompartimentosIniciales| && v in s.vehiculos && v.codigo == CompartimentosIniciales[k].0 ==>
      ClavesLista(v.id, CompartimentosIniciales[k].1) <= Claves(s.compartimentos, ClaveCompartimento)
  }

  /** The store already holds everything the script creates. */
  ghost predicate Sembrado(s: Store) {
    && CodigosDe(VehiculosIniciales) <= Claves(s.vehiculos, CodigoDe)
    && CompartimentosCompletos(s)
    && EquiposCompletos(s)
  }

  /** Equipment keys covering every requested sample key make the store's equipment complete. */
  lemma FlotaCubiertaCompleta(s: Store)
    requires ClavesFlota(s.vehiculos, s.compartimentos, EquiposEjemplo) <= Claves(s.equipos, ClaveEquipo)
    ensures EquiposCompletos(s)
  {
    forall i | 0 <= i < |s.compartimentos| && s.compartimentos[i].vehiculo in Claves(s.vehiculos, IdVehiculo)
      ensures ClavesEjemplo(s.compartimentos[i].id, EquiposEjemplo) <= Claves(s.equipos, ClaveEquipo)
    {
      FlotaCubre(s.vehiculos, s.compartimentos, EquiposEjemplo, i);
    }
  }

  /**
   * With unique codes, the row recorded for a code is the only vehicle carrying it,
   * so compartment keys covering the requested ones make the compartments complete.
   */
  lemma SembradasCompletas(s: Store, creados: map<string, Vehiculo>)
    requires Unicos(s.vehiculos, CodigoDe) && Registrados(creados, s.vehiculos)
    requires forall k :: 0 <= k < |CompartimentosIniciales| ==> CompartimentosIniciales[k].0 in creados
    requires ClavesSembradas(creados, CompartimentosIniciales) <= Claves(s.compartimentos, ClaveCompartimento)
    ensures CompartimentosCompletos(s)
  {
    forall k, v | 0 <= k < |CompartimentosIniciales| && v in s.vehiculos && v.codigo == CompartimentosIniciales[k].0
      ensures ClavesLista(v.id, CompartimentosIniciales[k].1) <= Claves(s.compartimentos, ClaveCompartimento)
    {
      UnicoPorClave(s.vehiculos, CodigoDe, v, creados[CompartimentosIniciales[k].0]);
      SembradasContiene(creados, CompartimentosIniciales, k);
    }
  }

  /** On a seeded store each step finds every key it asks for, so no table changes. */
  lemma SembradoSinCambios(s: Store, vs: seq<Vehiculo>, creados: map<string, Vehiculo>, cs: seq<Compartimento>, es: seq<Equipo>)
    requires Sembrado(s)
    requires CodigosDe(VehiculosIniciales) <= Claves(s.vehiculos, CodigoDe) ==> vs == s.vehiculos
    requires Registrados(creados, vs)
    requires forall k :: 0 <= k < |CompartimentosIniciales| ==> CompartimentosIniciales[k].0 in creados
    requires ClavesSembradas(creados, CompartimentosIniciales) <= Claves(s.compartimentos, ClaveCompartimento) ==> cs == s.compartimentos
    requires ClavesFlota(vs, cs, EquiposEjemplo) <= Claves(s.equipos, ClaveEquipo) ==> es == s.equipos
    ensures vs == s.vehiculos && cs == s.compartimentos && es == s.equipos
  {
    SembradasDentro(creados, CompartimentosIniciales, Claves(s.compartimentos, ClaveCompartimento));
    FlotaDentro(vs, cs, EquiposEjemplo, Claves(s.equipos, ClaveEquipo));
  }

  /** The three steps of the script, one after the other, on the three tables. */
  method CrearTablas(s: Store)
    returns (vs: seq<Vehiculo>, creados: map<string, Vehiculo>, cs: seq<Compartimento>, es: seq<Equipo>, total: nat)
    ensures Crece(s.vehiculos, vs, CodigoDe, IdVehiculo, CodigosDe(VehiculosIniciales))
    ensures CodigosDe(VehiculosIniciales) <= Claves(s.vehiculos, CodigoDe) ==> vs == s.vehiculos
    ensures creados.Keys == CodigosDe(VehiculosIniciales) && Registrados(creados, vs)
    ensures forall k :: 0 <= k < |CompartimentosIniciales| ==> CompartimentosIniciales[k].0 in creados
    ensures Crece(s.compartimentos, cs, ClaveCompartimento, IdCompartimento, ClavesSembradas(creados, CompartimentosIniciales))
    ensures ClavesSembradas(creados, CompartimentosIniciales) <= Claves(s.compartimentos, ClaveCompartimento) ==> cs == s.compartimentos
    ensures Crece(s.equipos, es, ClaveEquipo, IdEquipo, ClavesFlota(vs, cs, EquiposEjemplo))
    ensures total == |es| - |s.equipos|
    ensures ClavesFlota(vs, cs, EquiposEjemplo) <= Claves(s.equipos, ClaveEquipo) ==> es == s.equipos
  {
    vs, creados := CrearVehiculos(s.vehiculos, VehiculosIniciales);
    CodigosIniciales();
    cs := CrearCompartimentos(s.compartimentos, creados, CompartimentosIniciales);
    es, total := CrearEquipos(s.equipos, vs, cs, EquiposEjemplo);
  }

  /** `crear_datos_iniciales`: returns the new store and the number of equipment rows created. */
  method CrearDatosIniciales(s: Store) returns (s': Store, total: nat)
    ensures s'.revisiones == s.revisiones && s'.detalles == s.detalles
    ensures Crece(s.vehiculos, s'.vehiculos, CodigoDe, IdVehiculo, CodigosDe(VehiculosIniciales))
    ensures Extiende(s.compartimentos, s'.compartimentos)
    ensures Unicos(s.compartimentos, ClaveCompartimento) ==> Unicos(s'.compartimentos, ClaveCompartimento)
    ensures Unicos(s.compartimentos, IdCompartimento) ==> Unicos(s'.compartimentos, IdCompartimento)
    ensures Extiende(s.equipos, s'.equipos) && total == |s'.equipos| - |s.equipos|
    ensures Unicos(s.equipos, ClaveEquipo) ==> Unicos(s'.equipos, ClaveEquipo)
    ensures Unicos(s.equipos, IdEquipo) ==> Unicos(s'.equipos, IdEquipo)
    ensures CodigosDe(VehiculosIniciales) <= Claves(s'.vehiculos, CodigoDe)
    ensures EquiposCompletos(s')
    ensures CodigosUnicos(s.vehiculos) ==> Sembrado(s')
    ensures Integro(s) ==> Integro(s')
    ensures Sembrado(s) ==> s' == s && total == 0
  {
    var vs, creados, cs, es, t := CrearTablas(s);
    s', total := Store(vs, cs, es, s.revisiones, s.detalles), t;

    FlotaCubiertaCompleta(s');
    RestriccionesComoClaves(s);
    RestriccionesComoClaves(s');
    if CodigosUnicos(s.vehiculos) {
      SembradasCompletas(s', creados);
    }
    if Sembrado(s) {
      SembradoSinCambios(s, vs, creados, cs, es);
    }
  }
}
