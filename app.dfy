/**
 * The application shell (frontend/src/App.jsx): the `responsable` session state, its
 * mirror in local storage, and the route table.
 */
module App {
  import opened Wrappers
  import opened Text
  import VehicleCard

  class Aplicacion {
    var responsable: string
    /** `localStorage['inventario_responsable']` */
    var almacenado: Option<string>

    ghost predicate Valid()
      reads this
    {
      almacenado == SiNoVacio(responsable)
    }

    /** Start-up: the stored name or '' (`getItem(…) || ''`), then the effect's first run. */
    constructor (guardado: Option<string>)
      ensures responsable == guardado.GetOr("")
      ensures Valid()
    {
      responsable := guardado.GetOr("");
      almacenado := SiNoVacio(guardado.GetOr(""));
    }

    /** The `useEffect` on `responsable`: store a non-empty name, remove the key otherwise. */
    method SincronizarAlmacen()
      modifies this`almacenado
      ensures Valid()
    {
      if responsable != "" {
        almacenado := Some(responsable);
      } else {
        almacenado := None;
      }
    }

    method HandleLogin(nombre: string)
      modifies this
      ensures responsable == nombre && Valid()
    {
      responsable := nombre;
      SincronizarAlmacen();
    }

    method HandleCambiarResponsable()
      modifies this
      ensures responsable == "" && almacenado.None? && Valid()
    {
      responsable := "";
      SincronizarAlmacen();
    }
  }

  // ---------------------------------------------------------------------------
  // Routes
  // ---------------------------------------------------------------------------

  /** Which route pattern a path matches. */
  datatype Ruta = RutaLogin | RutaInicio | RutaRevision(id: string) | RutaItems(id: string) | OtraRuta

  /** A `:id` parameter: one non-empty path segment. */
  predicate Segmento(s: string) {
    s != "" && '/' !in s
  }

  function Emparejar(path: string): Ruta {
    if path == "/login" then RutaLogin
    else if path == "/" then RutaInicio
    else if |path| > 10 && path[..10] == "/vehiculo/" then
      var resto := path[10..];
      if Segmento(resto) then RutaRevision(resto)
      else if |resto| > 6 && resto[|resto| - 6..] == "/items" && Segmento(resto[..|resto| - 6]) then RutaItems(resto[..|resto| - 6])
      else OtraRuta
    else OtraRuta
  }

  /** What the router renders. */
  datatype Vista = VistaLogin | VistaDashboard | VistaRevision(id: string) | VistaInventario(id: string) | Redirigir(a: string)

  function Mostrar(path: string, responsable: string): (v: Vista)
    ensures Emparejar(path) == RutaLogin ==> v == (if responsable != "" then Redirigir("/") else VistaLogin)
    ensures Emparejar(path) == OtraRuta ==> v == Redirigir("/")
    ensures Emparejar(path) !in {RutaLogin, OtraRuta} && responsable == "" ==> v == Redirigir("/login")
    ensures responsable != "" ==> v != Redirigir("/login") && v != VistaLogin
    ensures responsable == "" ==> !v.VistaDashboard? && !v.VistaRevision? && !v.VistaInventario?
    ensures responsable != "" && Emparejar(path) == RutaInicio ==> v == VistaDashboard
    ensures responsable != "" && Emparejar(path).RutaRevision? ==> v == VistaRevision(Emparejar(path).id)
    ensures responsable != "" && Emparejar(path).RutaItems? ==> v == VistaInventario(Emparejar(path).id)
  {
    match Emparejar(path)
    case RutaLogin => if responsable != "" then Redirigir("/") else VistaLogin
    case RutaInicio => if responsable != "" then VistaDashboard else Redirigir("/login")
    case RutaRevision(id) => if responsable != "" then VistaRevision(id) else Redirigir("/login")
    case RutaItems(id) => if responsable != "" then VistaInventario(id) else Redirigir("/login")
    case OtraRuta => Redirigir("/")
  }

  /** Following redirects settles on a screen after at most two of them. */
  lemma RedireccionesTerminan(path: string, responsable: string)
    ensures var v := Mostrar(path, responsable);
      v.Redirigir? ==>
        var v2 := Mostrar(v.a, responsable);
        v2.Redirigir? ==> !Mostrar(v2.a, responsable).Redirigir?
  {
    assert Emparejar("/") == RutaInicio;
    assert Emparejar("/login") == RutaLogin;
  }

  /** `/vehiculo/<d>` and `/vehiculo/<d>/items` match the review and the catalog routes for a segment `d`. */
  lemma EmparejarVehiculo(d: string)
    requires Segmento(d)
    ensures Emparejar("/vehiculo/" + d) == RutaRevision(d)
    ensures Emparejar("/vehiculo/" + d + "/items") == RutaItems(d)
  {
    var p := "/vehiculo/" + d;
    assert p[..10] == "/vehiculo/" && p[10..] == d;
    var q := "/vehiculo/" + d + "/items";
    var resto := q[10..];
    assert q[..10] == "/vehiculo/" && resto == d + "/items";
    assert resto[|resto| - 6..] == "/items";
    assert resto[..|resto| - 6] == d;
    assert resto[|d|] == '/';
  }

  /** A card's links match the review and the catalog routes, with the vehicle's id as `:id`. */
  lemma RutasDeTarjeta(id: nat)
    ensures Emparejar(VehicleCard.RutaRevision(id)) == RutaRevision(Digits(id))
    ensures Emparejar(VehicleCard.RutaItems(id)) == RutaItems(Digits(id))
  {
    var d := Digits(id);
    assert '/' !in d by {
      forall i | 0 <= i < |d| ensures d[i] != '/' { }
    }
    EmparejarVehiculo(d);
  }

  /** A card's links reach the review and the catalog screens of that vehicle. */
  lemma EnlacesDeTarjeta(id: nat, responsable: string)
    requires responsable != ""
    ensures Mostrar(VehicleCard.RutaRevision(id), responsable) == VistaRevision(Digits(id))
    ensures Mostrar(VehicleCard.RutaItems(id), responsable) == VistaInventario(Digits(id))
  {
    RutasDeTarjeta(id);
  }

  /** Logging in with a non-blank name (trimmed, as the form sends it) opens the guarded screens. */
  lemma LoginAbreRutas(entrada: string)
    requires !AllSpace(entrada)
    ensures Mostrar("/", Trim(entrada)) == VistaDashboard
    ensures Mostrar("/login", Trim(entrada)) == Redirigir("/")
  {
    TrimEmptyIffBlank(entrada);
    assert Emparejar("/") == RutaInicio;
    assert Emparejar("/login") == RutaLogin;
  }
}
