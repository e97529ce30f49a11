/**
 * The catalog screen (frontend/src/components/GestionarInventario.jsx): forms that
 * create compartments and equipment, and confirm-gated deletes.
 */
module GestionarInventario {
  import opened Wrappers
  import opened Text
  import opened Api

  /** A numeric form field: the number it was set to by code, or the text typed into it. */
  datatype Campo = Numero(n: int) | Texto(s: string)

  /**
   * `parseInt(campo, 10)`. `parse` stands for `parseInt` on text (`None` for NaN);
   * a number set by code parses to itself.
   */
  function Leer(parse: string -> Option<int>, c: Campo): Option<int> {
    match c
    case Numero(n) => Some(n)
    case Texto(t) => parse(t)
  }

  /** `parseInt(…) || d`: NaN and 0 are falsy and give way to `d`. */
  function OPorDefecto(p: Option<int>, d: int): (r: int)
    ensures p.Some? && p.value != 0 ==> r == p.value
    ensures p.None? || p == Some(0) ==> r == d
    ensures d != 0 ==> r != 0
  {
    if p.Some? && p.value != 0 then p.value else d
  }

  datatype FormCompartimento = FormCompartimento(nombre: string, orden: Campo)
  datatype FormEquipo = FormEquipo(compartimento: string, nombre: string, cantidadEsperada: Campo, orden: Campo)

  const FormCompartimentoInicial: FormCompartimento := FormCompartimento("", Numero(0))
  const FormEquipoInicial: FormEquipo := FormEquipo("", "", Numero(1), Numero(0))

  datatype PayloadCompartimento = PayloadCompartimento(vehiculo: Option<int>, nombre: string, orden: int, activo: bool)
  datatype PayloadEquipo = PayloadEquipo(compartimento: Option<int>, nombre: string, cantidadEsperada: int, orden: int, activo: bool)

  /** `handleCrearCompartimento` proceeds only when the trimmed name is non-empty. */
  predicate PuedeCrearCompartimento(f: FormCompartimento)
    ensures PuedeCrearCompartimento(f) <==> !AllSpace(f.nombre)
  {
    TrimEmptyIffBlank(f.nombre);
    Trim(f.nombre) != ""
  }

  /** `handleCrearEquipo` also needs a compartment to be selected. */
  predicate PuedeCrearEquipo(f: FormEquipo)
    ensures PuedeCrearEquipo(f) <==> !AllSpace(f.nombre) && f.compartimento != ""
  {
    TrimEmptyIffBlank(f.nombre);
    Trim(f.nombre) != "" && f.compartimento != ""
  }

  /** The compartment button is disabled exactly while saving or when the handler would do nothing. */
  function BotonCompartimentoDeshabilitado(saving: bool, f: FormCompartimento): (r: bool)
    ensures r <==> saving || !PuedeCrearCompartimento(f)
  {
    saving || Trim(f.nombre) == ""
  }

  /** The equipment button is disabled exactly while saving or when the handler would do nothing. */
  function BotonEquipoDeshabilitado(saving: bool, f: FormEquipo): (r: bool)
    ensures r <==> saving || !PuedeCrearEquipo(f)
  {
    saving || Trim(f.nombre) == "" || f.compartimento == ""
  }

  /** The body of `compartimentosService.create`. */
  function PayloadDeCompartimento(parse: string -> Option<int>, idRuta: string, f: FormCompartimento): (p: PayloadCompartimento)
    ensures p.vehiculo == parse(idRuta) && p.activo
    ensures p.nombre == Trim(f.nombre)
    ensures PuedeCrearCompartimento(f) ==> p.nombre != [] && !IsSpace(p.nombre[0]) && !IsSpace(p.nombre[|p.nombre| - 1])
    ensures p.orden == 0 <==> Leer(parse, f.orden).None? || Leer(parse, f.orden) == Some(0)
    ensures Leer(parse, f.orden).Some? && Leer(parse, f.orden).value != 0 ==> p.orden == Leer(parse, f.orden).value
  {
    PayloadCompartimento(parse(idRuta), Trim(f.nombre), OPorDefecto(Leer(parse, f.orden), 0), true)
  }

  /** The body of `equiposService.create`: the expected quantity is never 0, and 1 when unreadable. */
  function PayloadDeEquipo(parse: string -> Option<int>, f: FormEquipo): (p: PayloadEquipo)
    ensures p.compartimento == parse(f.compartimento) && p.activo
    ensures p.nombre == Trim(f.nombre)
    ensures PuedeCrearEquipo(f) ==> p.nombre != [] && !IsSpace(p.nombre[0]) && !IsSpace(p.nombre[|p.nombre| - 1])
    ensures p.cantidadEsperada != 0
    ensures Leer(parse, f.cantidadEsperada).None? || Leer(parse, f.cantidadEsperada) == Some(0) ==> p.cantidadEsperada == 1
    ensures Leer(parse, f.cantidadEsperada).Some? && Leer(parse, f.cantidadEsperada).value != 0 ==>
      p.cantidadEsperada == Leer(parse, f.cantidadEsperada).value
    ensures p.orden == 0 <==> Leer(parse, f.orden).None? || Leer(parse, f.orden) == Some(0)
    ensures Leer(parse, f.orden).Some? && Leer(parse, f.orden).value != 0 ==> p.orden == Leer(parse, f.orden).value
  {
    PayloadEquipo(
      parse(f.compartimento),
      Trim(f.nombre),
      OPorDefecto(Leer(parse, f.cantidadEsperada), 1),
      OPorDefecto(Leer(parse, f.orden), 0),
      true)
  }

  /** `vehiculo?.compartimentos?.length ?? 0` */
  function CompartimentosActuales(v: Option<VehiculoData>): (n: nat)
    ensures v.Some? && v.value.compartimentos.Some? ==> n == |v.value.compartimentos.value|
    ensures n == 0 <==> v.None? || v.value.compartimentos.None? || v.value.compartimentos.value == []
  {
    if v.Some? && v.value.compartimentos.Some? then |v.value.compartimentos.value| else 0
  }

  /**
   * How a create or delete request ended. A failure's `cuerpo` is the JSON text of
   * `err.response.data` when that is truthy, and None when there is no response or
   * its data is falsy (absent, null, "", 0 or false).
   */
  datatype Resultado = Exito | Fracaso(cuerpo: Option<string>)

  /** `err.response?.data ? JSON.stringify(err.response.data) : porDefecto` */
  function MensajeDeError(cuerpo: Option<string>, porDefecto: string): string {
    cuerpo.GetOr(porDefecto)
  }

  const ErrorCarga: string := "Error al cargar el vehículo. Verifica que el servidor esté corriendo."
  const ErrorCrearCompartimento: string := "Error al crear compartimento."
  const ErrorCrearEquipo: string := "Error al crear equipo."
  const ErrorEliminarCompartimento: string := "Error al eliminar compartimento."
  const ErrorEliminarEquipo: string := "Error al eliminar equipo."

  class Gestion {
    var vehiculo: Option<VehiculoData>
    var loading: bool
    var error: Option<string>
    var saving: bool
    var nuevoCompartimento: FormCompartimento
    var nuevoEquipo: FormEquipo

    constructor ()
      ensures vehiculo.None? && loading && error.None? && !saving
      ensures nuevoCompartimento == FormCompartimentoInicial && nuevoEquipo == FormEquipoInicial
    {
      vehiculo, loading, error, saving := None, true, None, false;
      nuevoCompartimento, nuevoEquipo := FormCompartimentoInicial, FormEquipoInicial;
    }

    /** `cargarDatos` once `getById` has answered (`None`: the request failed). */
    method CargarDatos(respuesta: Option<VehiculoData>)
      modifies this`vehiculo, this`loading, this`error
      ensures !loading
      ensures respuesta.Some? ==> vehiculo == respuesta && error.None?
      ensures respuesta.None? ==> vehiculo == old(vehiculo) && error == Some(ErrorCarga)
    {
      loading := true;
      error := None;
      if respuesta.Some? {
        vehiculo := respuesta;
      } else {
        error := Some(ErrorCarga);
      }
      loading := false;
    }

    /**
     * `handleCrearCompartimento`: `creado` is how the create request ended and
     * `recarga` the reload that follows a success. Returns the body sent, if any.
     */
    method HandleCrearCompartimento(parse: string -> Option<int>, idRuta: string, creado: Resultado, recarga: Option<VehiculoData>)
      returns (enviado: Option<PayloadCompartimento>)
      modifies this`vehiculo, this`loading, this`error, this`saving, this`nuevoCompartimento
      ensures nuevoEquipo == old(nuevoEquipo)
      ensures !PuedeCrearCompartimento(old(nuevoCompartimento)) ==>
        && enviado.None?
        && vehiculo == old(vehiculo) && loading == old(loading) && error == old(error)
        && saving == old(saving) && nuevoCompartimento == old(nuevoCompartimento)
      ensures PuedeCrearCompartimento(old(nuevoCompartimento)) ==>
        && enviado == Some(PayloadDeCompartimento(parse, idRuta, old(nuevoCompartimento)))
        && !saving
      ensures PuedeCrearCompartimento(old(nuevoCompartimento)) && creado.Exito? ==>
        && nuevoCompartimento == FormCompartimento("", Numero(CompartimentosActuales(old(vehiculo))))
        && !loading
        && (recarga.Some? ==> vehiculo == recarga && error.None?)
        && (recarga.None? ==> vehiculo == old(vehiculo) && error == Some(ErrorCarga))
      ensures PuedeCrearCompartimento(old(nuevoCompartimento)) && creado.Fracaso? ==>
        && nuevoCompartimento == old(nuevoCompartimento)
        && vehiculo == old(vehiculo) && loading == old(loading)
        && error == Some(MensajeDeError(creado.cuerpo, ErrorCrearCompartimento))
    {
      var f := nuevoCompartimento;
      if !PuedeCrearCompartimento(f) {
        return None;
      }
      saving := true;
      enviado := Some(PayloadDeCompartimento(parse, idRuta, f));
      var siguiente := FormCompartimento("", Numero(CompartimentosActuales(vehiculo)));
      match creado {
        case Exito =>
          nuevoCompartimento := siguiente;
          CargarDatos(recarga);
        case Fracaso(cuerpo) =>
          error := Some(MensajeDeError(cuerpo, ErrorCrearCompartimento));
      }
      saving := false;
    }

    /** `handleCrearEquipo`; on success the form returns to its initial value. */
    method HandleCrearEquipo(parse: string -> Option<int>, creado: Resultado, recarga: Option<VehiculoData>)
      returns (enviado: Option<PayloadEquipo>)
      modifies this`vehiculo, this`loading, this`error, this`saving, this`nuevoEquipo
      ensures nuevoCompartimento == old(nuevoCompartimento)
      ensures !PuedeCrearEquipo(old(nuevoEquipo)) ==>
        && enviado.None?
        && vehiculo == old(vehiculo) && loading == old(loading) && error == old(error)
        && saving == old(saving) && nuevoEquipo == old(nuevoEquipo)
      ensures PuedeCrearEquipo(old(nuevoEquipo)) ==>
        && enviado == Some(PayloadDeEquipo(parse, old(nuevoEquipo)))
        && !saving
      ensures PuedeCrearEquipo(old(nuevoEquipo)) && creado.Exito? ==>
        && nuevoEquipo == FormEquipoInicial
        && !loading
        && (recarga.Some? ==> vehiculo == recarga && error.None?)
        && (recarga.None? ==> vehiculo == old(vehiculo) && error == Some(ErrorCarga))
      ensures PuedeCrearEquipo(old(nuevoEquipo)) && creado.Fracaso? ==>
        && nuevoEquipo == old(nuevoEquipo)
        && vehiculo == old(vehiculo) && loading == old(loading)
        && error == Some(MensajeDeError(creado.cuerpo, ErrorCrearEquipo))
    {
      var f := nuevoEquipo;
      if !PuedeCrearEquipo(f) {
        return None;
      }
      saving := true;
      enviado := Some(PayloadDeEquipo(parse, f));
      match creado {
        case Exito =>
          nuevoEquipo := FormEquipoInicial;
          CargarDatos(recarga);
        case Fracaso(cuerpo) =>
          error := Some(MensajeDeError(cuerpo, ErrorCrearEquipo));
      }
      saving := false;
    }

    /** The shared shape of both delete handlers; `confirmado` is the answer to `window.confirm`. */
    method Eliminar(confirmado: bool, borrado: bool, recarga: Option<VehiculoData>, mensaje: string)
      returns (solicitado: bool)
      modifies this`vehiculo, this`loading, this`error, this`saving
      ensures solicitado == confirmado
      ensures !confirmado ==>
        vehiculo == old(vehiculo) && loading == old(loading) && error == old(error) && saving == old(saving)
      ensures confirmado ==> !saving
      ensures confirmado && borrado ==>
        && !loading
        && (recarga.Some? ==> vehiculo == recarga && error.None?)
        && (recarga.None? ==> vehiculo == old(vehiculo) && error == Some(ErrorCarga))
      ensures confirmado && !borrado ==>
        vehiculo == old(vehiculo) && loading == old(loading) && error == Some(mensaje)
    {
      if !confirmado {
        return false;
      }
      solicitado := true;
      saving := true;
      if borrado {
        CargarDatos(recarga);
      } else {
        error := Some(mensaje);
      }
      saving := false;
    }

    /** `handleEliminarCompartimento`: the delete request is sent only after confirmation. */
    method HandleEliminarCompartimento(confirmado: bool, borrado: bool, recarga: Option<VehiculoData>)
      returns (solicitado: bool)
      modifies this`vehiculo, this`loading, this`error, this`saving
      ensures solicitado == confirmado
      ensures !confirmado ==>
        vehiculo == old(vehiculo) && loading == old(loading) && error == old(error) && saving == old(saving)
      ensures confirmado ==> !saving
      ensures confirmado && borrado ==>
        && !loading
        && (recarga.Some? ==> vehiculo == recarga && error.None?)
        && (recarga.None? ==> vehiculo == old(vehiculo) && error == Some(ErrorCarga))
      ensures confirmado && !borrado ==>
        vehiculo == old(vehiculo) && loading == old(loading) && error == Some(ErrorEliminarCompartimento)
    {
      solicitado := Eliminar(confirmado, borrado, recarga, ErrorEliminarCompartimento);
    }

    /** `handleEliminarEquipo`: the delete request is sent only after confirmation. */
    method HandleEliminarEquipo(confirmado: bool, borrado: bool, recarga: Option<VehiculoData>)
      returns (solicitado: bool)
      modifies this`vehiculo, this`loading, this`error, this`saving
      ensures solicitado == confirmado
      ensures !confirmado ==>
        vehiculo == old(vehiculo) && loading == old(loading) && error == old(error) && saving == old(saving)
      ensures confirmado ==> !saving
      ensures confirmado && borrado ==>
        && !loading
        && (recarga.Some? ==> vehiculo == recarga && error.None?)
        && (recarga.None? ==> vehiculo == old(vehiculo) && error == Some(ErrorCarga))
      ensures confirmado && !borrado ==>
        vehiculo == old(vehiculo) && loading == old(loading) && error == Some(ErrorEliminarEquipo)
    {
      solicitado := Eliminar(confirmado, borrado, recarga, ErrorEliminarEquipo);
    }
  }
}
