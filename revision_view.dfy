/**
 * The review screen (frontend/src/components/RevisionView.jsx): it flattens the
 * vehicle's compartments into one list, seeds a draft with every item unmarked,
 * edits the draft one key at a time and gates the submission of the review.
 */
module RevisionView {
  import opened Wrappers
  import opened Inventory
  import opened Api

  // ---------------------------------------------------------------------------
  // The flattened equipment list
  // ---------------------------------------------------------------------------

  /** An element of `equiposList`: an equipment item tagged with its compartment's name. */
  datatype EquipoEnLista = EquipoEnLista(equipo: EquipoData, compartimentoNombre: string)

  /** `vehiculoData.compartimentos || []` */
  function CompartimentosDe(v: VehiculoData): seq<CompartimentoData> {
    v.compartimentos.GetOr([])
  }

  /** `compartimento.equipos || []` */
  function EquiposDe(c: CompartimentoData): seq<EquipoData> {
    c.equipos.GetOr([])
  }

  function Etiquetados(c: CompartimentoData): seq<EquipoEnLista> {
    seq(|EquiposDe(c)|, j requires 0 <= j < |EquiposDe(c)| => EquipoEnLista(EquiposDe(c)[j], c.nombre))
  }

  /** How many items the compartments hold together. */
  function TotalItems(cs: seq<CompartimentoData>): nat {
    if cs == [] then 0 else TotalItems(cs[..|cs| - 1]) + |EquiposDe(cs[|cs| - 1])|
  }

  /** The list `cargarDatos` builds: compartment by compartment, item by item. */
  function Aplanar(cs: seq<CompartimentoData>): (r: seq<EquipoEnLista>)
    ensures |r| == TotalItems(cs)
  {
    if cs == [] then [] else Aplanar(cs[..|cs| - 1]) + Etiquetados(cs[|cs| - 1])
  }

  lemma {:induction false} AplanarPrefijo(cs: seq<CompartimentoData>, k: nat)
    requires k <= |cs|
    ensures Aplanar(cs[..k]) <= Aplanar(cs)
  {
    if k < |cs| {
      AplanarPrefijo(cs[..|cs| - 1], k);
      assert cs[..|cs| - 1][..k] == cs[..k];
    } else {
      assert cs[..k] == cs;
    }
  }

  /**
   * Item `j` of compartment `i` sits in the flattened list right after the items of
   * the compartments before `i`, tagged with compartment `i`'s name.
   */
  lemma AplanarPosicion(cs: seq<CompartimentoData>, i: nat, j: nat)
    requires i < |cs| && j < |EquiposDe(cs[i])|
    ensures |Aplanar(cs[..i])| + j < |Aplanar(cs)|
    ensures Aplanar(cs)[|Aplanar(cs[..i])| + j] == EquipoEnLista(EquiposDe(cs[i])[j], cs[i].nombre)
  {
    AplanarPrefijo(cs, i + 1);
    assert cs[..i + 1][..i] == cs[..i];
    assert Aplanar(cs[..i + 1]) == Aplanar(cs[..i]) + Etiquetados(cs[i]);
  }

  /** `cargarDatos`' nested `forEach` loops pushing onto `equiposList`. */
  method ExtraerEquipos(v: VehiculoData) returns (lista: seq<EquipoEnLista>)
    ensures lista == Aplanar(CompartimentosDe(v))
  {
    var cs := CompartimentosDe(v);
    lista := [];
    for i := 0 to |cs|
      invariant lista == Aplanar(cs[..i])
    {
      var es := EquiposDe(cs[i]);
      for j := 0 to |es|
        invariant lista == Aplanar(cs[..i]) + Etiquetados(cs[i])[..j]
      {
        lista := lista + [EquipoEnLista(es[j], cs[i].nombre)];
      }
      assert cs[..i + 1][..i] == cs[..i];
      assert Etiquetados(cs[i])[..|es|] == Etiquetados(cs[i]);
    }
    assert cs[..|cs|] == cs;
  }

  // ---------------------------------------------------------------------------
  // The draft
  // ---------------------------------------------------------------------------

  /**
   * One value of the `revision` state object. Both fields can be missing: a spread
   * over a key the draft does not hold (`...prev[id]` of `undefined`) adds only the
   * field being set.
   */
  datatype Entrada = Entrada(estado: Option<Marca>, observaciones: Option<string>)

  const EntradaInicial: Entrada := Entrada(Some(SinMarcar), Some(""))

  type Borrador = map<nat, Entrada>

  function Ids(lista: seq<EquipoEnLista>): set<nat> {
    set k | 0 <= k < |lista| :: lista[k].equipo.id
  }

  /** Every listed item has a key in the draft, and that key holds a mark. */
  ghost predicate Cubre(lista: seq<EquipoEnLista>, b: Borrador) {
    forall k :: 0 <= k < |lista| ==> lista[k].equipo.id in b && b[lista[k].equipo.id].estado.Some?
  }

  /** `revisionInicial`: one entry per listed id, each 'pendiente' with empty observaciones. */
  method RevisionInicial(lista: seq<EquipoEnLista>) returns (b: Borrador)
    ensures b.Keys == Ids(lista)
    ensures forall id :: id in b ==> b[id] == EntradaInicial
    ensures Cubre(lista, b)
  {
    b := map[];
    for i := 0 to |lista|
      invariant b.Keys == set k | 0 <= k < i :: lista[k].equipo.id
      invariant forall id :: id in b ==> b[id] == EntradaInicial
    {
      b := b[lista[i].equipo.id := EntradaInicial];
    }
  }

  /** `prev[id]`, or the empty object a spread of `undefined` yields. */
  function Previa(b: Borrador, id: nat): Entrada {
    if id in b then b[id] else Entrada(None, None)
  }

  /** `handleEstadoChange`'s update: only `revision[id].estado` changes. */
  function ConEstado(b: Borrador, id: nat, m: Marca): (r: Borrador)
    ensures r.Keys == b.Keys + {id}
    ensures r[id].estado == Some(m) && r[id].observaciones == Previa(b, id).observaciones
    ensures forall k :: k in b && k != id ==> r[k] == b[k]
  {
    b[id := Previa(b, id).(estado := Some(m))]
  }

  /** `handleObservacionesChange`'s update: only `revision[id].observaciones` changes. */
  function ConObservaciones(b: Borrador, id: nat, t: string): (r: Borrador)
    ensures r.Keys == b.Keys + {id}
    ensures r[id].observaciones == Some(t) && r[id].estado == Previa(b, id).estado
    ensures forall k :: k in b && k != id ==> r[k] == b[k]
  {
    b[id := Previa(b, id).(observaciones := Some(t))]
  }

  lemma ConEstadoCubre(lista: seq<EquipoEnLista>, b: Borrador, id: nat, m: Marca)
    requires Cubre(lista, b)
    ensures Cubre(lista, ConEstado(b, id, m))
  {
  }

  lemma ConObservacionesCubre(lista: seq<EquipoEnLista>, b: Borrador, id: nat, t: string)
    requires Cubre(lista, b)
    ensures Cubre(lista, ConObservaciones(b, id, t))
  {
  }

  // ---------------------------------------------------------------------------
  // The submission gate
  // ---------------------------------------------------------------------------

  /** The draft keys still marked 'pendiente'. */
  function Pendientes(b: Borrador): set<nat> {
    set k | k in b && b[k].estado == Some(SinMarcar)
  }

  /** `itemsPendientes`: `Object.values(revision).filter(r => r.estado === 'pendiente').length` */
  function ItemsPendientes(b: Borrador): nat {
    |Pendientes(b)|
  }

  /** `hayPendientes`: `Object.values(revision).some(r => r.estado === 'pendiente')` */
  predicate HayPendientes(b: Borrador)
    ensures HayPendientes(b) <==> ItemsPendientes(b) > 0
  {
    AlgunPendiente(b);
    exists k :: k in b && b[k].estado == Some(SinMarcar)
  }

  lemma AlgunPendiente(b: Borrador)
    ensures (exists k :: k in b && b[k].estado == Some(SinMarcar)) <==> |Pendientes(b)| > 0
  {
    if exists k :: k in b && b[k].estado == Some(SinMarcar) {
      var k :| k in b && b[k].estado == Some(SinMarcar);
      assert k in Pendientes(b);
    }
  }

  /** Exactly one key left unmarked is reported as one missing item. */
  lemma UnoPendiente(b: Borrador, k0: nat)
    requires k0 in b && b[k0].estado == Some(SinMarcar)
    requires forall k :: k in b && k != k0 ==> b[k].estado != Some(SinMarcar)
    ensures ItemsPendientes(b) == 1
  {
    assert Pendientes(b) == {k0};
  }

  datatype Compuerta = FaltaResponsable | FaltanItems(n: nat) | Aceptada

  /** `handleGuardar`'s two early returns, in order: no responsable, then unmarked items. */
  function Validar(responsable: string, b: Borrador): (r: Compuerta)
    ensures r == FaltaResponsable <==> responsable == ""
    ensures r.FaltanItems? <==> responsable != "" && HayPendientes(b)
    ensures r.FaltanItems? ==> r.n > 0
    ensures r == Aceptada <==> responsable != "" && forall k :: k in b ==> b[k].estado != Some(SinMarcar)
  {
    if responsable == "" then FaltaResponsable
    else if ItemsPendientes(b) > 0 then FaltanItems(ItemsPendientes(b))
    else Aceptada
  }

  /** The button's `disabled`: saving, no responsable, or some item still 'pendiente'. */
  function GuardarDeshabilitado(saving: bool, responsable: string, b: Borrador): (r: bool)
    ensures !r <==> !saving && Validar(responsable, b) == Aceptada
  {
    saving || responsable == "" || HayPendientes(b)
  }

  datatype DetallePayload = DetallePayload(equipo: nat, estado: Marca, observaciones: string)

  datatype RevisionPayload = RevisionPayload(
    vehiculo: Option<int>,
    responsable: string,
    observacionesGenerales: string,
    detalles: seq<DetallePayload>)

  /**
   * `detalles`: one element per listed item, in list order, carrying the item's mark
   * and observaciones from the draft ('pendiente' and "" where the draft has none).
   */
  function Detalles(lista: seq<EquipoEnLista>, b: Borrador): (r: seq<DetallePayload>)
    ensures |r| == |lista|
    ensures forall i :: 0 <= i < |r| ==> r[i].equipo == lista[i].equipo.id
    ensures forall i :: 0 <= i < |r| ==> var id := lista[i].equipo.id;
      && r[i].estado == (if id in b && b[id].estado.Some? then b[id].estado.value else SinMarcar)
      && r[i].observaciones == (if id in b && b[id].observaciones.Some? then b[id].observaciones.value else "")
    ensures Cubre(lista, b) ==> forall i :: 0 <= i < |r| ==> r[i].estado == b[lista[i].equipo.id].estado.value
  {
    seq(|lista|, i requires 0 <= i < |lista| =>
      var e := Previa(b, lista[i].equipo.id);
      DetallePayload(lista[i].equipo.id, e.estado.GetOr(SinMarcar), e.observaciones.GetOr("")))
  }

  /** `revisionData`: the route's vehicle id, the responsable, empty general notes and one detail per listed item. */
  function Payload(idRuta: Option<int>, responsable: string, lista: seq<EquipoEnLista>, b: Borrador): (p: RevisionPayload)
    ensures p.vehiculo == idRuta && p.responsable == responsable && p.observacionesGenerales == ""
    ensures p.detalles == Detalles(lista, b)
    ensures |p.detalles| == |lista|
  {
    RevisionPayload(idRuta, responsable, "", Detalles(lista, b))
  }

  function MarcasPayload(ds: seq<DetallePayload>): seq<Marca> {
    seq(|ds|, i requires 0 <= i < |ds| => ds[i].estado)
  }

  /** An accepted draft that covers the list sends no 'pendiente' detail. */
  lemma AceptadaSinPendientes(lista: seq<EquipoEnLista>, b: Borrador, responsable: string)
    requires Cubre(lista, b) && Validar(responsable, b) == Aceptada
    ensures forall i :: 0 <= i < |lista| ==> Detalles(lista, b)[i].estado != SinMarcar
    ensures SinMarcar !in MarcasPayload(Detalles(lista, b))
  {
    var ds := Detalles(lista, b);
    forall i | 0 <= i < |lista| ensures ds[i].estado != SinMarcar {
      assert lista[i].equipo.id in b;
    }
  }

  /** `equiposConNO`: listed items whose draft entry is 'no'. */
  function EquiposConNo(lista: seq<EquipoEnLista>, b: Borrador): (r: nat)
    ensures r <= |lista|
  {
    if lista == [] then 0
    else EquiposConNo(lista[..|lista| - 1], b) + (if Previa(b, lista[|lista| - 1].equipo.id).estado == Some(No) then 1 else 0)
  }

  /** Dropping the last listed item drops the last mark of the payload. */
  lemma MarcasSinUltimo(lista: seq<EquipoEnLista>, b: Borrador)
    requires lista != []
    ensures var ms := MarcasPayload(Detalles(lista, b));
      && |ms| == |lista|
      && ms[..|ms| - 1] == MarcasPayload(Detalles(lista[..|lista| - 1], b))
      && ms[|ms| - 1] == Previa(b, lista[|lista| - 1].equipo.id).estado.GetOr(SinMarcar)
  {
    var ms := MarcasPayload(Detalles(lista, b));
    var ms0 := MarcasPayload(Detalles(lista[..|lista| - 1], b));
    assert forall i :: 0 <= i < |ms0| ==> ms[i] == ms0[i];
    assert ms[..|ms| - 1] == ms0;
  }

  /** The warning banner's count is the number of 'no' details the review will carry. */
  lemma {:induction false} EquiposConNoEsCuentaNo(lista: seq<EquipoEnLista>, b: Borrador)
    ensures Count(MarcasPayload(Detalles(lista, b)), No) == EquiposConNo(lista, b)
  {
    if lista != [] {
      EquiposConNoEsCuentaNo(lista[..|lista| - 1], b);
      MarcasSinUltimo(lista, b);
    }
  }

  /**
   * Once accepted, the marks the payload carries give a status that is critical
   * exactly when the banner counted some 'no', complete otherwise, and pending only
   * for an empty item list.
   */
  lemma EstadoDelEnvio(lista: seq<EquipoEnLista>, b: Borrador, responsable: string)
    requires Cubre(lista, b) && Validar(responsable, b) == Aceptada
    ensures lista == [] ==> EstadoDeMarcas(MarcasPayload(Detalles(lista, b))) == Pendiente
    ensures lista != [] ==>
      EstadoDeMarcas(MarcasPayload(Detalles(lista, b))) == if EquiposConNo(lista, b) > 0 then Critico else Completo
  {
    var ms := MarcasPayload(Detalles(lista, b));
    AceptadaSinPendientes(lista, b, responsable);
    EquiposConNoEsCuentaNo(lista, b);
    if No !in ms {
      forall i | 0 <= i < |ms| ensures ms[i] == Si {
        assert ms[i] in ms;
      }
    }
  }

  // ---------------------------------------------------------------------------
  // The component's state
  // ---------------------------------------------------------------------------

  const ErrorCarga: string := "Error al cargar los datos del vehículo."
  const ErrorGuardar: string := "Error al guardar la revisión. Intenta nuevamente."

  /** What a call of `handleGuardar` does, seen from outside. */
  datatype Guardado =
    | AvisoResponsable            // alert: choose a responsable first
    | AvisoPendientes(n: nat)      // alert: n items still unmarked
    | Enviada(datos: RevisionPayload, creada: bool)  // create sent; navigates to '/' when created

  class Revisando {
    var vehiculo: Option<VehiculoData>
    var equipos: seq<EquipoEnLista>
    var revision: Borrador
    var loading: bool
    var saving: bool
    var error: Option<string>

    constructor ()
      ensures vehiculo.None? && equipos == [] && revision == map[]
      ensures loading && !saving && error.None?
    {
      vehiculo, equipos, revision := None, [], map[];
      loading, saving, error := true, false, None;
    }

    /** `cargarDatos` once `getById` has answered (`None`: the request failed). */
    method CargarDatos(respuesta: Option<VehiculoData>)
      modifies this
      ensures !loading && saving == old(saving)
      ensures respuesta.Some? ==>
        && vehiculo == respuesta
        && equipos == Aplanar(CompartimentosDe(respuesta.value))
        && revision.Keys == Ids(equipos)
        && (forall id :: id in revision ==> revision[id] == EntradaInicial)
        && Cubre(equipos, revision)
        && error == old(error)
      ensures respuesta.None? ==>
        && vehiculo == old(vehiculo) && equipos == old(equipos) && revision == old(revision)
        && error == Some(ErrorCarga)
    {
      loading := true;
      match respuesta {
        case Some(v) =>
          vehiculo := respuesta;
          var lista := ExtraerEquipos(v);
          equipos := lista;
          var inicial := RevisionInicial(lista);
          revision := inicial;
        case None =>
          error := Some(ErrorCarga);
      }
      loading := false;
    }

    method HandleEstadoChange(id: nat, m: Marca)
      modifies this`revision
      ensures revision == ConEstado(old(revision), id, m)
    {
      revision := ConEstado(revision, id, m);
    }

    method HandleObservacionesChange(id: nat, t: string)
      modifies this`revision
      ensures revision == ConObservaciones(old(revision), id, t)
    {
      revision := ConObservaciones(revision, id, t);
    }

    /**
     * `handleGuardar`. `idRuta` is `parseInt(id)` of the route parameter (`None` for
     * NaN) and `creada` whether the store accepted the create request.
     */
    method HandleGuardar(responsable: string, idRuta: Option<int>, creada: bool) returns (g: Guardado)
      modifies this`saving, this`error
      ensures Validar(responsable, revision) == FaltaResponsable ==>
        g == AvisoResponsable && saving == old(saving) && error == old(error)
      ensures Validar(responsable, revision).FaltanItems? ==>
        g == AvisoPendientes(ItemsPendientes(revision)) && saving == old(saving) && error == old(error)
      ensures Validar(responsable, revision) == Aceptada ==>
        && g == Enviada(Payload(idRuta, responsable, equipos, revision), creada)
        && !saving
        && error == (if creada then None else Some(ErrorGuardar))
    {
      match Validar(responsable, revision) {
        case FaltaResponsable =>
          g := AvisoResponsable;
        case FaltanItems(n) =>
          g := AvisoPendientes(n);
        case Aceptada =>
          saving := true;
          error := None;
          g := Enviada(Payload(idRuta, responsable, equipos, revision), creada);
          if !creada {
            error := Some(ErrorGuardar);
          }
          saving := false;
      }
    }
  }
}
