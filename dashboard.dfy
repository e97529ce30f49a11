/**
 * The dashboard (frontend/src/components/Dashboard.jsx): loads the vehicle list and
 * the fleet's statuses, folds the statuses into a map keyed by vehicle id, and hands
 * each card its status.
 */
module Dashboard {
  import opened Wrappers
  import opened Api
  import opened Inventory
  import Views
  import VehicleCard

  /** `estadosMap` after the `forEach`: each id maps to the last entry carrying it. */
  function MapaEstados(es: seq<EstadoEntry>): (m: map<nat, EstadoEntry>)
    ensures m.Keys == set i | 0 <= i < |es| :: es[i].vehiculoId
    ensures forall id :: id in m ==> m[id] in es && m[id].vehiculoId == id
  {
    if es == [] then map[]
    else
      var init := es[..|es| - 1];
      var last := es[|es| - 1];
      assert forall e :: e in init ==> e in es;
      assert es == init + [last];
      MapaEstados(init)[last.vehiculoId := last]
  }

  /** A later entry with the same id overwrites an earlier one: entry `i` survives when no later one shares its id. */
  lemma {:induction false} UltimaGana(es: seq<EstadoEntry>, i: nat)
    requires i < |es|
    requires forall j :: i < j < |es| ==> es[j].vehiculoId != es[i].vehiculoId
    ensures es[i].vehiculoId in MapaEstados(es) && MapaEstados(es)[es[i].vehiculoId] == es[i]
  {
    if i < |es| - 1 {
      UltimaGana(es[..|es| - 1], i);
    }
  }

  /** The fold itself: `(estadosRes.data || []).forEach(e => estadosMap[e.vehiculo_id] = e)`. */
  method ConstruirMapa(data: Option<seq<EstadoEntry>>) returns (m: map<nat, EstadoEntry>)
    ensures m == MapaEstados(data.GetOr([]))
  {
    var es := data.GetOr([]);
    m := map[];
    for i := 0 to |es|
      invariant m == MapaEstados(es[..i])
    {
      assert es[..i + 1][..i] == es[..i];
      m := m[es[i].vehiculoId := es[i]];
    }
    assert es[..|es|] == es;
  }

  /** The vehicle list response: paginated (`results`) or a bare list. */
  datatype RespuestaVehiculos = Paginada(results: seq<VehiculoData>) | Lista(items: seq<VehiculoData>)

  /** `vehiculosRes.data.results || vehiculosRes.data` */
  function VehiculosDe(r: RespuestaVehiculos): (vs: seq<VehiculoData>)
    ensures r.Paginada? ==> vs == r.results
    ensures r.Lista? ==> vs == r.items
  {
    match r
    case Paginada(rs) => rs
    case Lista(xs) => xs
  }

  /** A failed request: `err.response` and its `status`, either possibly missing. */
  datatype RespuestaError = RespuestaError(status: Option<int>)

  /** The `detail` the error panel shows. */
  datatype Detalle = SinConexion | AccesoDenegado | ErrorServidor(status: Option<int>)

  /** No response is a network error, status 403 is access denied, anything else a server error. */
  function Clasificar(respuesta: Option<RespuestaError>): (d: Detalle)
    ensures d == SinConexion <==> respuesta.None?
    ensures d == AccesoDenegado <==> respuesta == Some(RespuestaError(Some(403)))
    ensures d.ErrorServidor? ==> respuesta.Some? && d.status == respuesta.value.status && d.status != Some(403)
  {
    match respuesta
    case None => SinConexion
    case Some(r) => if r.status == Some(403) then AccesoDenegado else ErrorServidor(r.status)
  }

  /** The card's `estado` prop: `estados[id]?.estado || 'pendiente'`. */
  function EstadoTarjeta(m: map<nat, EstadoEntry>, id: nat): (r: string)
    ensures r != ""
    ensures id !in m ==> r == "pendiente"
    ensures id in m && m[id].estado != "" ==> r == m[id].estado
  {
    if id in m && m[id].estado != "" then m[id].estado else "pendiente"
  }

  /** The card's `estadoData` prop: `estados[id]`. */
  function DatosTarjeta(m: map<nat, EstadoEntry>, id: nat): Option<EstadoEntry> {
    if id in m then Some(m[id]) else None
  }

  /** The card resolves the status the dashboard passes it: both props name the same string. */
  lemma TarjetaConcuerda(m: map<nat, EstadoEntry>, id: nat)
    ensures VehicleCard.EstadoStr(DatosTarjeta(m, id), EstadoTarjeta(m, id)) == EstadoTarjeta(m, id)
  {
  }

  /** When entry `i` describes vehicle `vs[i]` and ids identify the vehicles, vehicle `v`'s key holds one of `v`'s entries. */
  lemma {:induction false} MapaPorVehiculo(es: seq<EstadoEntry>, vs: seq<Vehiculo>, v: Vehiculo) returns (i: nat)
    requires |es| == |vs| && forall k :: 0 <= k < |es| ==> es[k].vehiculoId == vs[k].id
    requires v in vs && IdsIdentifican(vs)
    ensures i < |vs| && vs[i] == v
    ensures v.id in MapaEstados(es) && MapaEstados(es)[v.id] == es[i]
  {
    var k :| 0 <= k < |vs| && vs[k] == v;
    assert es[k].vehiculoId == v.id;
    var m := MapaEstados(es);
    i :| 0 <= i < |es| && es[i] == m[v.id];
    assert vs[i] in vs;
  }

  /** With ids identifying rows, the fleet map holds each active vehicle's own entry. */
  lemma MapaDeEstadosDe(s: Store, responsable: string, v: Vehiculo)
    requires v in s.vehiculos && v.activo
    requires IdsIdentifican(s.vehiculos)
    ensures var m := MapaEstados(Views.EstadosDe(s, responsable));
      v.id in m && m[v.id] == Views.EstadoDe(s, v, responsable)
  {
    var act := Views.Activos(s.vehiculos);
    var es := Views.EstadosDe(s, responsable);
    forall k | 0 <= k < |es| ensures es[k].vehiculoId == act[k].id {
      assert es[k] == Views.EstadoDe(s, act[k], responsable);
    }
    assert IdsIdentifican(act);
    var i := MapaPorVehiculo(es, act, v);
    assert es[i] == Views.EstadoDe(s, act[i], responsable);
  }

  /**
   * End to end: with vehicle ids identifying rows, every active vehicle's card shows
   * the status `Vehiculo.calcular_estado` derives on the server.
   */
  lemma TarjetaMuestraEstadoDelServidor(s: Store, responsable: string, v: Vehiculo)
    requires v in s.vehiculos && v.activo
    requires IdsIdentifican(s.vehiculos)
    ensures var m := MapaEstados(Views.EstadosDe(s, responsable));
      && v.id in m
      && EstadoTarjeta(m, v.id) == EstadoNombre(EstadoVehiculo(s, v, responsable))
      && VehicleCard.EstadoStr(DatosTarjeta(m, v.id), EstadoTarjeta(m, v.id)) == EstadoNombre(EstadoVehiculo(s, v, responsable))
  {
    MapaDeEstadosDe(s, responsable, v);
  }

  /**
   * End to end: an active vehicle's card shows the counter panel exactly when the
   * server's status is not pending, and then shows the vehicle's active equipment
   * total and the SI count of its latest review, with a NO row exactly when that
   * review is critical, carrying its NO count.
   */
  lemma TarjetaMuestraContadoresDelServidor(s: Store, responsable: string, v: Vehiculo)
    requires v in s.vehiculos && v.activo
    requires IdsIdentifican(s.vehiculos)
    ensures var m := MapaEstados(Views.EstadosDe(s, responsable));
      var p := VehicleCard.PanelContadores(DatosTarjeta(m, v.id), VehicleCard.EstadoStr(DatosTarjeta(m, v.id), EstadoTarjeta(m, v.id)));
      && (p.Some? <==> EstadoVehiculo(s, v, responsable) != Pendiente)
      && (p.Some? ==>
        && UltimaRevision(s, v, responsable).Some?
        && p.value.equipos == Views.TotalEquipos(s.compartimentos, s.equipos, v.id)
        && p.value.si == |FilasCon(s.detalles, UltimaRevision(s, v, responsable).value.id, Si)|
        && (p.value.no.Some? <==> EstadoVehiculo(s, v, responsable) == Critico)
        && (p.value.no.Some? ==> p.value.no.value == |FilasCon(s.detalles, UltimaRevision(s, v, responsable).value.id, No)|))
  {
    MapaDeEstadosDe(s, responsable, v);
    TarjetaMuestraEstadoDelServidor(s, responsable, v);
  }

  /** How the two parallel requests ended. */
  datatype Carga =
    | Cargada(vehiculosRes: RespuestaVehiculos, estadosRes: Option<seq<EstadoEntry>>)
    | Fallida(respuesta: Option<RespuestaError>)

  class Panel {
    var vehiculos: seq<VehiculoData>
    var estados: map<nat, EstadoEntry>
    var loading: bool
    var error: Option<Detalle>

    constructor ()
      ensures vehiculos == [] && estados == map[] && loading && error.None?
    {
      vehiculos, estados, loading, error := [], map[], true, None;
    }

    /** `cargarDatos` once both requests have answered or one of them failed. */
    method CargarDatos(carga: Carga)
      modifies this
      ensures !loading
      ensures carga.Cargada? ==>
        && vehiculos == VehiculosDe(carga.vehiculosRes)
        && estados == MapaEstados(carga.estadosRes.GetOr([]))
        && error.None?
      ensures carga.Fallida? ==>
        && vehiculos == old(vehiculos) && estados == old(estados)
        && error == Some(Clasificar(carga.respuesta))
    {
      loading := true;
      error := None;
      match carga {
        case Cargada(vr, er) =>
          vehiculos := VehiculosDe(vr);
          var m := ConstruirMapa(er);
          estados := m;
        case Fallida(r) =>
          error := Some(Clasificar(r));
      }
      loading := false;
    }
  }
}
