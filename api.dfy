/**
 * The JSON shapes the REST API exchanges with the front end, as the model's
 * components read and write them.
 */
module Api {
  import opened Wrappers

  /** One element of `GET /vehiculos/estados/` (and the body of `GET /vehiculos/{id}/estado/`). */
  datatype EstadoEntry = EstadoEntry(
    vehiculoId: nat,
    codigo: string,
    nombre: string,
    estado: string,
    ultimaRevisionFecha: Option<int>,
    ultimaRevisionResponsable: Option<string>,
    totalEquipos: nat,
    equiposRevisados: nat,
    equiposSi: nat,
    equiposNo: nat)

  /** A vehicle as `GET /vehiculos/{id}/` returns it; the nested lists may be missing. */
  datatype EquipoData = EquipoData(id: nat, nombre: string, cantidadEsperada: nat)
  datatype CompartimentoData = CompartimentoData(id: nat, nombre: string, equipos: Option<seq<EquipoData>>)
  datatype VehiculoData = VehiculoData(id: nat, codigo: string, nombre: string, compartimentos: Option<seq<CompartimentoData>>)
}
