# InventarioMovil — a verified model of the inventory core

InventarioMovil is a fire-brigade app for checking vehicle equipment. A Django REST
backend stores vehicles, their compartments, the equipment in each compartment, and
inventory reviews. Each review marks every equipment item SI, NO or pendiente. A React
frontend lets a named *responsable* log in, see the fleet with each vehicle's status
(pendiente / completo / critico), run a review, and edit a vehicle's catalog. A seed
script fills the catalog.

This project models that core in Dafny, one module per source file:

| module | file | models |
|---|---|---|
| `Inventory` | `inventory.dfy` | `inventario/models.py`: the tables as a `Store` value, the status rule, the newest-first order and "latest review" |
| `Views` | `views.dfy` | `inventario/views.py`: the per-vehicle status entries and the annotated review listing |
| `RevisionView` | `revision_view.dfy` | `RevisionView.jsx`: flattening the catalog, the review draft, the save gate and payload; class `Revisando` holds the component state |
| `Dashboard` | `dashboard.dfy` | `Dashboard.jsx`: the status map, the error classification; class `Panel` |
| `VehicleCard` | `vehicle_card.dfy` | `VehicleCard.jsx`: status string, label/colour/icon lookups, counters, links |
| `GestionarInventario` | `gestionar_inventario.dfy` | `GestionarInventario.jsx`: create forms, payloads, button guards; class `Gestion` |
| `App` | `app.dfy` | `App.jsx`: the session state mirrored in local storage (class `Aplicacion`) and the route table |
| `LoginForm` | `login_form.dfy` | `LoginForm.jsx`: class `Formulario` |
| `Seed` | `seed.dfy` | `manage_seed.py`: get-or-create seeding of vehicles, compartments and sample equipment |
| `Text`, `Wrappers`, `Api` | `text.dfy`, `wrappers.dfy`, `api.dfy` | JavaScript `trim`, string truthiness and decimal digits, `Option`, and the JSON shapes the API exchanges |

The database is a value: `Store` holds one sequence per table. Review dates (`fecha`) are
integers ordered like timestamps. Each React component whose state changes is a class
whose methods take what the network answered as a parameter.

Main results:

- **Status rule.** `Inventory.EstadoDeMarcas` characterises critico, completo and
  pendiente as if-and-only-if conditions on the review's marks.
  `Views.ReglaConcuerda` ties the status string to the SI/NO counts the API reports.
  `RevisionView.EstadoDelEnvio` shows that once the save gate accepts, the marks the
  payload carries give completo or critico, and pendiente only for an empty item list.
- **Dashboard end to end.** `Dashboard.TarjetaMuestraEstadoDelServidor`: for every
  active vehicle, the card shows the status that `Vehiculo.calcular_estado` derives,
  computed through the `/estados/` endpoint and the dashboard's `vehiculo_id` map.
- **Seeding.** `Seed.CrearDatosIniciales` only appends rows. Afterwards every seeded
  code exists and every compartment of every vehicle holds all ten sample items. It
  keeps the schema's uniqueness constraints. A second run on a seeded store changes
  nothing and reports 0 items created.
- **Routes.** Every guarded route redirects to `/login` without a responsable. A
  non-blank login, trimmed as the form sends it, opens them. Redirects settle within
  two hops. The card's links reach the review and catalog screens of that vehicle.

## Model

| member | source | states |
|---|---|---|
| Inventory.EstadoNombre | inventario/models.py:25-29 | the vehicle status is always one of 'pendiente', 'completo', 'critico' |
| Inventory.Primero | inventario/views.py:43-51 | `.first()` of a filtered query: none exactly when no row matches, otherwise a matching row of the table |
| Inventory.PrimeroPrefijo | inventario/views.py:47 | appending rows to a table does not change which row `.first()` finds once one matches |
| Inventory.Count | inventario/models.py:50 | the count of a mark is bounded by the detail count; zero iff the mark is absent; equal to the detail count iff every detail has that mark |
| Inventory.CountAppend | inventario/models.py:50 | counting over two detail groups adds up |
| Inventory.CountPartition | inventario/models.py:146-150 | the SI, NO and pendiente counts of a review add up to its detail count, since those are the only three choices |
| Inventory.EstadoDeMarcas | inventario/models.py:132-141 | critico iff some detail is NO; completo iff there are details and all are SI; pendiente iff there are none, or none is NO and some is pendiente |
| Inventory.MarcasDe | inventario/models.py:134 | one mark per detail row of the review, so the length is the number of its detail rows and the count of each mark is the number of its rows carrying that mark; a mark appears iff some detail of the review carries it |
| Inventory.FiltrarRevisiones | inventario/views.py:196-203 | a review is kept iff it matches the optional vehicle filter and the non-empty responsable filter; the result is a sub-multiset |
| Inventory.CodigoTotal | inventario/models.py:20 | any two codes are comparable in the code order |
| Inventory.CodigoTransitivo | inventario/models.py:20 | the code order is transitive |
| Inventory.CodigoAntisimetrico | inventario/models.py:20 | two codes that sort no later than each other are equal |
| Inventory.InsertarPorCodigo | inventario/models.py:20 | inserting into a code-sorted list keeps it sorted and adds exactly that vehicle |
| Inventory.InsertarTrasPrimero | inventario/models.py:20 | a vehicle sorting after the head, inserted into the tail, keeps the list sorted |
| Inventory.OrdenarPorCodigo | inventario/models.py:20 | `ordering = ['codigo']`: sorted by code and a permutation of its input |
| Inventory.OrdenEstricto | inventario/models.py:10-20 | with unique codes, a code-sorted fleet lists its codes in strictly increasing order |
| Inventory.InsertarPorFecha | inventario/models.py:127 | inserting into a newest-first list keeps it newest-first and adds exactly that review |
| Inventory.InsertarDetras | inventario/models.py:127 | an older review inserted behind the head keeps the list newest-first |
| Inventory.MasRecientes | inventario/views.py:205 | `order_by('-fecha')`: newest-first and a permutation of its input |
| Inventory.Ultima | inventario/views.py:47 | `.order_by('-fecha').first()`: none iff there is no review; otherwise a review with the greatest date |
| Inventory.UltimaRevision | inventario/models.py:30-38 | none iff no review is for the vehicle (and for the responsable when one is given); otherwise one of them with the greatest date |
| Views.ReglaConcuerda | inventario/views.py:122-126 | the status string agrees with the counts: SI+NO ≤ reviewed; critico iff NO > 0; completo iff reviewed > 0 and SI = reviewed; pendiente otherwise |
| Views.EquiposActivos | inventario/views.py:57-60 | exactly the active equipment in a compartment of the vehicle |
| Views.EstadoDe | inventario/views.py:39-84 | the `/estado/` entry: identity fields from the vehicle, active-equipment total, status = `calcular_estado`, zeros and nulls without a review, the latest review's date, responsable and counts otherwise, counts agreeing with the status; the reviewed, SI and NO counts are the numbers of the latest review's detail rows, and of those marked SI and NO |
| Views.FiltrarActivos | inventario/views.py:96 | `filter(activo=True)`: each active row as often as in the table, no inactive row |
| Views.Activos | inventario/views.py:96 | the active vehicles under the default ordering of models.py:20: sorted by code, each active row as often as in the table, no inactive row |
| Views.EstadosDe | inventario/views.py:95-139 | one entry per active vehicle, in code order, each equal to that vehicle's `/estado/` entry |
| Views.EstadosDeLista | inventario/views.py:98-137 | the loop appends, for each vehicle of the queryset in turn, exactly that vehicle's `/estado/` entry |
| Views.Estados | inventario/views.py:95-139 | the endpoint returns exactly `EstadosDe`: one entry per active vehicle, in code order |
| Views.Consulta | inventario/views.py:191-205 | the filtered reviews, newest first, as a permutation of the filter's result |
| Views.Anotar | inventario/views.py:219-229 | a review of the store is annotated iff its id is non-zero; the annotation's status is that review's `calcular_estado` and agrees with its counts; the total, SI and NO counts are the numbers of its detail rows, and of those marked SI and NO |
| Views.ConsultaEnTabla | inventario/views.py:191-205 | every review the query lists is a row of the table, so the lookup at line 222 finds it |
| Views.AnotarTodas | inventario/views.py:218-229 | the loop pairs each review of the page, in order, with its annotation; for rows of the table, annotated exactly when the id is non-zero |
| Views.Listar | inventario/views.py:214-230 | one listed item per queried review, in order, annotated exactly when its id is non-zero |
| RevisionView.Aplanar | frontend/src/components/RevisionView.jsx:35-43 | the flat list has one item per equipment of every compartment |
| RevisionView.AplanarPrefijo | frontend/src/components/RevisionView.jsx:35-43 | flattening a prefix of the compartments gives a prefix of the list |
| RevisionView.AplanarPosicion | frontend/src/components/RevisionView.jsx:36-41 | the j-th item of compartment i sits right after the earlier compartments' items, labelled with its compartment's name |
| RevisionView.ExtraerEquipos | frontend/src/components/RevisionView.jsx:34-44 | the nested `forEach` loops build exactly the flattened list |
| RevisionView.RevisionInicial | frontend/src/components/RevisionView.jsx:46-54 | the draft has one entry per listed item, each pendiente with empty notes |
| RevisionView.ConEstado | frontend/src/components/RevisionView.jsx:63-71 | marking an item sets only its mark, keeps its notes, and leaves every other entry unchanged |
| RevisionView.ConObservaciones | frontend/src/components/RevisionView.jsx:73-81 | editing notes sets only that item's notes and keeps its mark |
| RevisionView.ConEstadoCubre | frontend/src/components/RevisionView.jsx:63-71 | marking keeps a mark on every listed item |
| RevisionView.ConObservacionesCubre | frontend/src/components/RevisionView.jsx:73-81 | editing notes keeps a mark on every listed item |
| RevisionView.HayPendientes | frontend/src/components/RevisionView.jsx:162 | `some(pendiente)` holds iff the pendiente count of line 91 is positive |
| RevisionView.AlgunPendiente | frontend/src/components/RevisionView.jsx:91 | some entry is pendiente iff the set of pendiente entries is non-empty |
| RevisionView.UnoPendiente | frontend/src/components/RevisionView.jsx:91 | exactly one pendiente entry gives a count of 1 |
| RevisionView.Validar | frontend/src/components/RevisionView.jsx:84-96 | no responsable is refused first; otherwise a positive count of unmarked items is refused; the save proceeds iff there is a responsable and no entry is pendiente |
| RevisionView.GuardarDeshabilitado | frontend/src/components/RevisionView.jsx:298 | the button is enabled iff not saving and the handler would proceed |
| RevisionView.Detalles | frontend/src/components/RevisionView.jsx:103-107 | one detail per listed item, in list order, for that item's equipment, carrying the draft's mark and notes for it (pendiente and "" where the draft has none); when the draft covers the list, exactly the draft's mark |
| RevisionView.Payload | frontend/src/components/RevisionView.jsx:109-114 | `revisionData`: the route's vehicle id, the responsable, empty general notes and the details of `Detalles`, one per listed item (with `AceptadaSinPendientes`: none pendiente once the gate accepts) |
| RevisionView.AceptadaSinPendientes | frontend/src/components/RevisionView.jsx:89-107 | after the gate accepts, no detail sent is pendiente |
| RevisionView.EquiposConNo | frontend/src/components/RevisionView.jsx:157-159 | the NO count is at most the number of items |
| RevisionView.EquiposConNoEsCuentaNo | frontend/src/components/RevisionView.jsx:157-159 | the on-screen NO count equals the NO count of the details sent |
| RevisionView.EstadoDelEnvio | frontend/src/components/RevisionView.jsx:98-116 | after the gate accepts, the marks the payload carries give critico if the on-screen NO count is positive, else completo; pendiente only when the item list is empty |
| RevisionView.Revisando.constructor | frontend/src/components/RevisionView.jsx:14-19 | initial state: no vehicle, empty list and draft, loading, not saving, no error |
| RevisionView.Revisando.CargarDatos | frontend/src/components/RevisionView.jsx:27-61 | success stores the vehicle, its flattened list and a fresh all-pendiente draft; failure sets the load error and keeps the rest; loading ends false |
| RevisionView.Revisando.HandleEstadoChange | frontend/src/components/RevisionView.jsx:63-71 | the draft becomes `ConEstado` of the old draft |
| RevisionView.Revisando.HandleObservacionesChange | frontend/src/components/RevisionView.jsx:73-81 | the draft becomes `ConObservaciones` of the old draft |
| RevisionView.Revisando.HandleGuardar | frontend/src/components/RevisionView.jsx:83-126 | the two warnings change nothing; an accepted save sends the payload, ends not saving, and sets the save error iff the request failed |
| Dashboard.MapaEstados | frontend/src/components/Dashboard.jsx:35-38 | the map's keys are exactly the entries' vehicle ids, and each value is an entry for that id |
| Dashboard.UltimaGana | frontend/src/components/Dashboard.jsx:36-38 | an entry with no later entry for the same id is the one stored |
| Dashboard.ConstruirMapa | frontend/src/components/Dashboard.jsx:35-38 | the `forEach` loop builds exactly `MapaEstados` of `estadosRes.data || []` |
| Dashboard.VehiculosDe | frontend/src/components/Dashboard.jsx:32 | `results` of a paginated answer, the list itself otherwise |
| Dashboard.Clasificar | frontend/src/components/Dashboard.jsx:42-49 | no response is a connection error; status 403 is access denied; any other response is a server error carrying its status |
| Dashboard.EstadoTarjeta | frontend/src/components/Dashboard.jsx:119-124 | the status passed to a card is never empty; 'pendiente' without an entry, the entry's status otherwise |
| Dashboard.TarjetaConcuerda | frontend/src/components/Dashboard.jsx:119-125 | the card's own fallback chain shows the status the dashboard passed |
| Dashboard.MapaPorVehiculo | frontend/src/components/Dashboard.jsx:35-38 | with entries aligned to vehicles with distinct ids, each vehicle's id maps to its own entry |
| Dashboard.MapaDeEstadosDe | frontend/src/components/Dashboard.jsx:35-38 | each active vehicle's id maps to its `/estado/` entry |
| Dashboard.TarjetaMuestraEstadoDelServidor | frontend/src/components/Dashboard.jsx:118-125 | every active vehicle's card shows the name of the status `calcular_estado` derives for it |
| Dashboard.TarjetaMuestraContadoresDelServidor | frontend/src/components/Dashboard.jsx:118-125 | an active vehicle's card shows the counter panel iff the server's status is not pendiente; the panel shows the vehicle's active-equipment total and the SI count of its latest review, and a NO row iff that review is critico, with its NO count |
| Dashboard.Panel.constructor | frontend/src/components/Dashboard.jsx:10-13 | initial state: no vehicles, empty map, loading, no error |
| Dashboard.Panel.CargarDatos | frontend/src/components/Dashboard.jsx:19-54 | success stores the vehicle list and the status map and clears the error; failure keeps both and stores the classified error; loading ends false |
| VehicleCard.EstadoStr | frontend/src/components/VehicleCard.jsx:11 | never empty; the entry's status first, then the passed status, then 'pendiente' |
| VehicleCard.Consultar | frontend/src/components/VehicleCard.jsx:40 | every status string finds a table value; an unknown one gets the pendiente value |
| VehicleCard.DesconocidoComoPendiente | frontend/src/components/VehicleCard.jsx:40-60 | an unknown status gets the pendiente colour, icon and label |
| VehicleCard.EstadosDistinguibles | frontend/src/components/VehicleCard.jsx:15-31 | the three statuses have distinct labels, icons and colours |
| VehicleCard.PanelContadores | frontend/src/components/VehicleCard.jsx:64-84 | the panel shows iff the status is non-empty and not 'pendiente'; then, without an entry, zeros and no NO row; with one, its total and SI count, and a NO row iff its NO count is positive, showing that count |
| VehicleCard.RutaRevision | frontend/src/components/VehicleCard.jsx:34 | the review link is under `/vehiculo/` |
| VehicleCard.RutaItems | frontend/src/components/VehicleCard.jsx:103 | the items link is the review link followed by `/items` |
| Text.TrimStart | frontend/src/components/LoginForm.jsx:11 | removes exactly a leading run of whitespace; the result does not start with whitespace |
| Text.TrimEnd | frontend/src/components/LoginForm.jsx:11 | removes exactly a trailing run of whitespace; the result does not end with whitespace |
| Text.Trim | frontend/src/components/LoginForm.jsx:11 | no longer than the input; neither end of the result is whitespace |
| Text.TrimIsTrimEndOfTrimStart | frontend/src/components/LoginForm.jsx:11 | stripping both ends equals removing the leading run of whitespace and then the trailing one |
| Text.TrimEmptyIffBlank | frontend/src/components/LoginForm.jsx:11 | `s.trim()` is empty iff `s` is all whitespace |
| Text.TrimIdempotent | frontend/src/components/LoginForm.jsx:12 | trimming twice is trimming once |
| Text.SiNoVacio | frontend/src/App.jsx:17-24 | a string is kept iff it is non-empty, and then unchanged: what the storage effect stores, the dashboard's `responsable ? getEstados(responsable) : getEstados()` is modelled by passing the string through, "" meaning no filter |
| Text.Digits | frontend/src/components/VehicleCard.jsx:34 | the decimal form of an id is non-empty, all digits, denotes the id and has no leading zero |
| GestionarInventario.OPorDefecto | frontend/src/components/GestionarInventario.jsx:56 | `parseInt(…) || d`: a non-zero parse is kept; NaN and 0 give the default; a non-zero default never yields 0 |
| GestionarInventario.PuedeCrearCompartimento | frontend/src/components/GestionarInventario.jsx:50 | the compartment handler proceeds iff the name is not all whitespace |
| GestionarInventario.PuedeCrearEquipo | frontend/src/components/GestionarInventario.jsx:71 | the equipment handler proceeds iff the name is not all whitespace and a compartment is selected |
| GestionarInventario.BotonCompartimentoDeshabilitado | frontend/src/components/GestionarInventario.jsx:203 | the button is disabled iff saving or the handler would return early |
| GestionarInventario.BotonEquipoDeshabilitado | frontend/src/components/GestionarInventario.jsx:262 | the button is disabled iff saving or the handler would return early |
| GestionarInventario.PayloadDeCompartimento | frontend/src/components/GestionarInventario.jsx:53-58 | the body sent: the route's vehicle id, the trimmed name, the parsed order when it is non-zero and 0 otherwise, active |
| GestionarInventario.PayloadDeEquipo | frontend/src/components/GestionarInventario.jsx:74-80 | the body sent: trimmed name, the parsed expected quantity when non-zero and 1 otherwise, the parsed order when non-zero and 0 otherwise, active |
| GestionarInventario.CompartimentosActuales | frontend/src/components/GestionarInventario.jsx:59 | the vehicle's compartment count, and 0 exactly when there is no vehicle, no compartment list or an empty one |
| GestionarInventario.Gestion.constructor | frontend/src/components/GestionarInventario.jsx:15-28 | initial state and the two empty forms |
| GestionarInventario.Gestion.CargarDatos | frontend/src/components/GestionarInventario.jsx:30-42 | success stores the vehicle and clears the error; failure keeps the vehicle and sets the load error |
| GestionarInventario.Gestion.HandleCrearCompartimento | frontend/src/components/GestionarInventario.jsx:48-67 | a blank name changes nothing; otherwise the payload is sent; success resets the form with order = the old compartment count and reloads; failure keeps the form and sets the body or default error; saving ends false |
| GestionarInventario.Gestion.HandleCrearEquipo | frontend/src/components/GestionarInventario.jsx:69-89 | as above, with the form reset to its initial value |
| GestionarInventario.Gestion.Eliminar | frontend/src/components/GestionarInventario.jsx:91-117 | the delete is requested iff confirmed; unconfirmed changes nothing; success reloads; failure sets the given error |
| GestionarInventario.Gestion.HandleEliminarCompartimento | frontend/src/components/GestionarInventario.jsx:91-103 | requested iff confirmed; unconfirmed changes nothing; success reloads (the reloaded vehicle and no error, or the load error), loading ends false; failure keeps the vehicle and loading and sets the compartment delete error |
| GestionarInventario.Gestion.HandleEliminarEquipo | frontend/src/components/GestionarInventario.jsx:105-117 | requested iff confirmed; unconfirmed changes nothing; success reloads (the reloaded vehicle and no error, or the load error), loading ends false; failure keeps the vehicle and loading and sets the equipment delete error |
| App.Aplicacion.constructor | frontend/src/App.jsx:12-24 | starts from the stored name or '' and the storage agrees with it |
| App.Aplicacion.SincronizarAlmacen | frontend/src/App.jsx:17-24 | the effect restores agreement between the state and local storage |
| App.Aplicacion.HandleLogin | frontend/src/App.jsx:26-28 | the responsable becomes the name and storage agrees |
| App.Aplicacion.HandleCambiarResponsable | frontend/src/App.jsx:30-32 | the responsable becomes '' and the key is removed |
| App.Mostrar | frontend/src/App.jsx:37-86 | `/login` redirects home when logged in; unknown paths redirect home; guarded paths redirect to `/login` without a responsable; with one, `/` shows the dashboard, `/vehiculo/:id` the review of that `id` and `/vehiculo/:id/items` its catalog, and never `/login` or the login screen; without one, no guarded screen |
| App.RedireccionesTerminan | frontend/src/App.jsx:37-86 | following redirects reaches a screen within two hops |
| App.EmparejarVehiculo | frontend/src/App.jsx:60-85 | `/vehiculo/<d>` matches the review route and `/vehiculo/<d>/items` the catalog route, with `d` as `:id`, for any single path segment `d` |
| App.RutasDeTarjeta | frontend/src/components/VehicleCard.jsx:97-103 | the card's two links match the review and catalog routes with the vehicle's decimal id as `:id` |
| App.EnlacesDeTarjeta | frontend/src/App.jsx:60-85 | when logged in, the card's review link shows that vehicle's review and the items link its catalog |
| App.LoginAbreRutas | frontend/src/App.jsx:37-59 | after logging in with a non-blank name, trimmed, `/` shows the dashboard and `/login` redirects home |
| LoginForm.Formulario.constructor | frontend/src/components/LoginForm.jsx:7 | the field starts empty |
| LoginForm.Formulario.HandleChange | frontend/src/components/LoginForm.jsx:40 | typing only records the text |
| LoginForm.Formulario.HandleSubmit | frontend/src/components/LoginForm.jsx:9-14 | `onLogin` is called iff the text is not all whitespace, and then with the trimmed, non-empty text |
| Seed.SiguienteId | manage_seed.py:82-85 | a new primary key is positive and above every key in use |
| Seed.CreceTrans | manage_seed.py:79-120 | two append-only runs in a row are one: the keys they ask for add up, uniqueness is kept, and rows are added only with new keys |
| Seed.AnadirCrece | manage_seed.py:82-85 | appending a row whose key is absent and whose id is above every id keeps key and id uniqueness and adds exactly that key |
| Seed.ObtenerOCrear | manage_seed.py:82-85 | get-or-create: creates iff the key is absent, appending exactly the new row; otherwise returns a row with that key; the key set gains that key; key and id uniqueness are kept |
| Seed.CrearVehiculo | manage_seed.py:82-86 | one pass: the code becomes present, is recorded with a row carrying it, and uniqueness is kept |
| Seed.CrearVehiculos | manage_seed.py:79-90 | rows only appended; the codes present grow by exactly the listed codes; every listed code is recorded with a row carrying it; uniqueness kept; nothing added when all codes exist |
| Seed.CrearCompartimentosDe | manage_seed.py:96-101 | appends only; a vehicle's compartment keys grow by exactly the listed names; uniqueness kept |
| Seed.SembradasContiene | manage_seed.py:94-101 | each vehicle's listed compartments are among the requested keys |
| Seed.CrearCompartimentos | manage_seed.py:92-103 | appends only; the compartment keys grow by exactly the requested ones; uniqueness kept; nothing added when all exist |
| Seed.CrearEquiposDe | manage_seed.py:110-120 | appends only; a compartment's item keys grow by exactly the sample names; the counter equals the rows added |
| Seed.CrearEquiposDeVehiculo | manage_seed.py:109-120 | the same over every compartment of one vehicle |
| Seed.CrearEquipos | manage_seed.py:105-120 | the same over every compartment of every vehicle in the table; nothing added when all are present |
| Seed.DeVehiculoCubre | manage_seed.py:109-110 | each compartment of the vehicle gets all sample keys |
| Seed.FlotaCubre | manage_seed.py:108-110 | each compartment of any vehicle in the table gets all sample keys |
| Seed.DeVehiculoDentro | manage_seed.py:109-110 | the requested keys of a vehicle lie within any set already covering its compartments |
| Seed.FlotaDentro | manage_seed.py:108-110 | the fleet's requested keys lie within any set already covering every compartment |
| Seed.SembradasDentro | manage_seed.py:94-101 | the requested compartment keys lie within any set covering each listed vehicle's names |
| Seed.UnicoPorClave | manage_seed.py:82-85 | in a table with unique keys, rows with equal keys are the same row |
| Seed.RestriccionesComoClaves | inventario/models.py:10 | the unique code, and the compartment uniqueness of line 73, are key uniqueness in the lookup sense |
| Seed.CodigosDeContiene | manage_seed.py:20-27 | every listed vehicle's code is among the listed codes |
| Seed.CodigosIniciales | manage_seed.py:30-63 | every code the compartment table names is a seeded vehicle, so the lookup at line 95 succeeds |
| Seed.FlotaCubiertaCompleta | manage_seed.py:105-120 | equipment keys covering every requested sample key means every compartment of every vehicle holds all samples |
| Seed.SembradasCompletas | manage_seed.py:92-101 | with unique codes, every vehicle carrying a seeded code has all the compartments listed for that code |
| Seed.SembradoSinCambios | manage_seed.py:79-120 | on a store that already holds everything, none of the three steps appends a row |
| Seed.CrearTablas | manage_seed.py:79-120 | the three steps in order: each table only grows, by exactly the keys its step asks for; every listed code is recorded with its row; each step adds nothing when its keys are present |
| Seed.CrearDatosIniciales | manage_seed.py:14-123 | tables only appended, reviews untouched; the count equals the items added; all codes present; every compartment of every vehicle holds all samples; with unique codes the store ends seeded; integrity and id uniqueness kept; on a seeded store nothing changes and the count is 0 |

## Left out

- The HTTP layer is not part of this model: the axios services, the serializers, the ViewSet routing and pagination. Each request is a parameter carrying what came back (data, or a failure with an optional status and body).
- `RevisionCreateSerializer` (the nested insert of a review with its details) is not part of this model. The review screen's model stops at the payload it sends.
- Async ordering is left out: overlapping requests, stale responses arriving after a newer one, and React's batching of state updates. Each handler runs to completion in one step.
- Date formatting (`toLocaleDateString`, `strftime`) is presentation. `fecha` is an integer with the timestamp order.
- Reviews with equal `fecha`: the model breaks ties by table order. Both the status and the `ultima_revision_*` fields use the same "latest" review. The database gives no order guarantee for ties.
- Route matching is exact. react-router also matches case-insensitively, ignores a trailing slash and URL-decodes `:id`.
- Lookups of JavaScript prototype keys (`estadoLabels['constructor']`) are not modelled. The tables are plain maps.
- Seed.ObtenerOCrear: when several rows share a key it takes the first. Django's `get_or_create` raises `MultipleObjectsReturned` there. Only `Equipo` lacks a uniqueness constraint, and the seed only creates its rows through this lookup.
- Seed.SiguienteId: a new id is one more than the largest in use. The database's sequence may skip values; nothing in the model depends on the exact id.
- The seed script's `print` output is left out.
- `window.confirm`, `alert` and `navigate` are parameters or outcomes: the confirmation is a `bool` argument; the warnings and the navigation after a save are values of `Guardado`.
- `parseInt` is the parameter `parse: string -> Option<int>` (`None` for NaN).
- GestionarInventario.MensajeDeError: `err.response?.data` and its `JSON.stringify` are not modelled as JSON values. The failure carries `Some` of the body's JSON text when the data is truthy and `None` when it is missing or falsy; the caller makes that distinction.
- Views.Activos: codes compare by Unicode code point, as a binary collation does. A database collation that is locale-aware would order some codes differently.
- Seed.CrearEquipos: walks `Vehiculo.objects.all()` and `vehiculo.compartimentos.all()` in table order rather than under the models' `ordering`. The rows created, the keys present and the count are the same either way; only the order in which rows are appended, and so their ids, can differ.
- The query parameter `vehiculo` of the review listing is an `Option<nat>`. Non-numeric values, which Django would reject, are not modelled.
- Inventory.EstadoVehiculo (`Vehiculo.calcular_estado`, models.py:25-54) is `Revision.calcular_estado` of the latest review, or pendiente when there is none. The source writes the same rule twice. Its properties are stated through `Inventory.UltimaRevision`, `Inventory.EstadoDeMarcas` and `Views.EstadoDe`.
- Markup, styles and the loading/error screens are left out. The model keeps the values they display.
