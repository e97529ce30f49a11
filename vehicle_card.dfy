/**
 * A vehicle's card on the dashboard (frontend/src/components/VehicleCard.jsx): which
 * status string it shows, the total colour/icon/label lookups, the counter panel and
 * its links.
 */
module VehicleCard {
  import opened Wrappers
  import opened Text
  import opened Api
  import Inventory

  /** `estadoData?.estado || estado || 'pendiente'` */
  function EstadoStr(data: Option<EstadoEntry>, estado: string): (r: string)
    ensures r != ""
    ensures data.Some? && data.value.estado != "" ==> r == data.value.estado
    ensures (data.None? || data.value.estado == "") && estado != "" ==> r == estado
    ensures r in {estado, "pendiente"} || (data.Some? && r == data.value.estado)
  {
    if data.Some? && data.value.estado != "" then data.value.estado
    else if estado != "" then estado
    else "pendiente"
  }

  const Colores: map<string, string> := map[
    "pendiente" := "bg-gray-100 border-gray-300",
    "completo" := "bg-success-50 border-success-300",
    "critico" := "bg-danger-50 border-danger-300"]

  const Etiquetas: map<string, string> := map[
    "pendiente" := "Pendiente",
    "completo" := "Completo",
    "critico" := "Crítico"]

  const Iconos: map<string, string> := map[
    "pendiente" := "\U{23F3}",
    "completo" := "\U{2705}",
    "critico" := "\U{26A0}\U{FE0F}"]

  /** `tabla[s] || tabla.pendiente`: every string finds an entry. */
  function Consultar(tabla: map<string, string>, s: string): (r: string)
    requires "pendiente" in tabla
    ensures r in tabla.Values
    ensures s !in tabla ==> r == tabla["pendiente"]
  {
    if s in tabla && tabla[s] != "" then tabla[s] else tabla["pendiente"]
  }

  function Color(s: string): string { Consultar(Colores, s) }
  function Etiqueta(s: string): string { Consultar(Etiquetas, s) }
  function Icono(s: string): string { Consultar(Iconos, s) }

  /** A status string the card does not know is shown exactly as 'pendiente'. */
  lemma DesconocidoComoPendiente(s: string)
    requires s !in {"pendiente", "completo", "critico"}
    ensures Color(s) == Color("pendiente") && Etiqueta(s) == Etiqueta("pendiente") && Icono(s) == Icono("pendiente")
  {
  }

  /** The three statuses the server derives get three different labels, icons and colours. */
  lemma EstadosDistinguibles(a: Inventory.Estado, b: Inventory.Estado)
    requires a != b
    ensures Etiqueta(Inventory.EstadoNombre(a)) != Etiqueta(Inventory.EstadoNombre(b))
    ensures Icono(Inventory.EstadoNombre(a)) != Icono(Inventory.EstadoNombre(b))
    ensures Color(Inventory.EstadoNombre(a)) != Color(Inventory.EstadoNombre(b))
  {
  }

  /** What the counter panel shows: equipment total, SI count, and the NO row only when positive. */
  datatype Contadores = Contadores(equipos: nat, si: nat, no: Option<nat>)

  /**
   * The counter panel, read from `estadoInfo = estadoData || { estado: estadoStr }`:
   * absent for 'pendiente'; otherwise the entry's counters, a missing one shown as 0.
   */
  function PanelContadores(data: Option<EstadoEntry>, estadoStr: string): (c: Option<Contadores>)
    ensures c.Some? <==> estadoStr != "" && estadoStr != "pendiente"
    ensures c.Some? && data.None? ==> c.value == Contadores(0, 0, None)
    ensures c.Some? && data.Some? ==>
      && c.value.equipos == data.value.totalEquipos
      && c.value.si == data.value.equiposSi
      && (c.value.no.Some? <==> data.value.equiposNo > 0)
    ensures c.Some? && c.value.no.Some? ==> data.Some? && c.value.no.value == data.value.equiposNo && c.value.no.value > 0
  {
    if estadoStr == "" || estadoStr == "pendiente" then None
    else match data
      case None => Some(Contadores(0, 0, None))
      case Some(e) => Some(Contadores(e.totalEquipos, e.equiposSi, if e.equiposNo > 0 then Some(e.equiposNo) else None))
  }

  /** The card and its review button navigate here. */
  function RutaRevision(id: nat): (r: string)
    ensures |r| > 10 && r[..10] == "/vehiculo/"
  {
    "/vehiculo/" + Digits(id)
  }

  /** The items link navigates here. */
  function RutaItems(id: nat): (r: string)
    ensures r == RutaRevision(id) + "/items"
  {
    "/vehiculo/" + Digits(id) + "/items"
  }
}
