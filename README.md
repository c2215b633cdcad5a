# CarnavalLogistics core in Dafny

A model of the two domain modules of CarnavalLogistics, the administrative backend for a public event.

- **Aforo** (venue capacity):
  - `AforoRepositoryMock` keeps three in-memory tables: venues, one occupancy record per venue, and the alert log.
  - `AforoService` adds the capacity rule, entries and exits, the threshold classification, the alert it raises, and the occupancy report.
- **Permisos** (vendor permits):
  - `PermisosRepositoryMock` keeps vendors, permit requests and approvals, written with spread-merged partial records.
  - `PermisosService` adds:
    - vendor registration and blocking;
    - the fee table with its volume discount;
    - the permit number;
    - the request life cycle: approve and reject only a pending request, cancel any;
    - the statistics;
    - the location availability search.
- **Validators:** the numeric and enumeration bounds of the request schemas, the capacity comparison and the closed-interval overlap search.

## Layout

| file | module | what it holds |
|---|---|---|
| `common.dfy` | `Common` | `Option`, `Result`, `Outcome`, and `Merge` (one field of a `{ ...a, ...b }` spread) |
| `ordered_maps.dfy` | `OrderedMaps` | A JavaScript `Map`: keys in first-insertion order plus a Dafny `map`. `Set` keeps an existing key's position. `Values` is `Array.from(m.values())`. |
| `aforo_model.dfy` | `AforoModels` | Venue, occupancy, alert, thresholds, errors and the venue patch |
| `aforo_validator.dfy` | `AforoValidators` | The bounds of `recintoCreateSchema` and `ocupacionUpdateSchema`, and `validateCapacidadNoExcedida` |
| `aforo_repository.dfy` | `AforoRepositories` | The rounded percentage, the active-alert filter, and class `AforoRepositoryMock` |
| `aforo_service.dfy` | `AforoServices` | The classifier, the alert choice, the report, and class `AforoService`, whose `Valid()` holds the capacity invariant |
| `permisos_model.dfy` | `PermisosModels` | Vendor, request, approval, statistics, the patches and the request life cycle |
| `permisos_validator.dfy` | `PermisosValidators` | The overlap test, `validateFechasNoSolapadas` and the schema bounds |
| `permisos_repository.dfy` | `PermisosRepositories` | The status and vendor filters, and class `PermisosRepositoryMock` |
| `permisos_service.dfy` | `PermisosServices` | The fee, the permit number, availability, and class `PermisosService`, whose `Valid()` ties requests, vendors, fees and approvals together |

### Modelling choices

- **Synchronous calls.** Every `async` method is a synchronous method: none of them suspends.
- **Errors.** A thrown error is an `Err` (or `Fail`) value carrying an error constructor, with the state left as the code leaves it.
- **Tables.** Repositories are classes whose tables are `OrderedMap` fields reassigned by `modifies this` methods. Services hold their repository in a `const` field and change it through `modifies repository`.
- **Percentages.** The stored percentage `Math.round(o / cap * 100 * 100) / 100` is a whole number of hundredths of a percent, rounded half up: `Porcentaje(o, cap) = (20000 o + cap) / (2 cap)`. The thresholds are scaled to match: 90 %, 75 % and 20 % are 9000, 7500 and 2000.
- **Fees.** Fees and areas are `real`; the 10 % discount multiplies by 0.9. The fee is computed on a category (`CalcularTarifa`); the lookup on an arbitrary name, with its `|| 25` fallback, is `TarifaDeNombre`.
- **Inputs from the environment.** These are method parameters:
  - ids (`uuidv4`);
  - instants (`new Date()`, as `ahora`);
  - the approval's UTC calendar date (`hoy`);
  - the random permit suffix.

  Dates are integers.
- **Controller flow.** `PermisosService.SolicitarPermiso` models the request flow of `PermisosController.crearSolicitud`: schema bounds, then the availability check, then creation.

### Behaviour worth knowing

- `cancelarSolicitud` cancels a request from every status, approved and rejected included. Approved and rejected are therefore not terminal. `DecididoSoloSeCancela` states exactly what is reachable.
- `actualizarRecinto` merges any field, the capacity included, and checks nothing. The capacity is therefore not fixed at creation. The capacity invariant is a property of `AforoService`, which never calls `actualizarRecinto`, not of the repository.
- `actualizarComerciante` merges any vendor field, not only the status.

## Model

| member | source | states |
|---|---|---|
| `OrderedMaps.Empty` | CarnavalLogistics/src/modules/aforo/repositories/AforoRepository.ts:38-40 | `new Map()`: no keys, nothing listed |
| `OrderedMaps.Get` | CarnavalLogistics/src/modules/aforo/repositories/AforoRepository.ts:57 | `map.get(k) \|\| null`: a value exactly when the key is stored, and then the stored one |
| `OrderedMaps.Values` | CarnavalLogistics/src/modules/aforo/repositories/AforoRepository.ts:61 | `Array.from(map.values())` has one entry per stored key |
| `OrderedMaps.Set` | CarnavalLogistics/src/modules/aforo/repositories/AforoRepository.ts:44 | `Map.set`: afterwards the key maps to the value and every other key keeps its value. A new key's value is appended to the listing; an existing key keeps its position. |
| `OrderedMaps.Delete` | CarnavalLogistics/src/modules/aforo/repositories/AforoRepository.ts:73 | `Map.delete` removes that key only |
| `OrderedMaps.InValues` | CarnavalLogistics/src/modules/aforo/repositories/AforoRepository.ts:61 | A value is listed exactly when some key maps to it |
| `OrderedMaps.ValuesCount` | CarnavalLogistics/src/modules/aforo/repositories/AforoRepository.ts:61 | The listing has as many entries as the map has keys |
| `AforoModels.AplicarCambios` | CarnavalLogistics/src/modules/aforo/repositories/AforoRepository.ts:67 | `{ ...recinto, ...updates, updatedAt }`: each field comes from the patch when present, otherwise from the venue; `updatedAt` is always refreshed |
| `AforoModels.CambiosVaciosSoloRefrescan` | CarnavalLogistics/src/modules/aforo/repositories/AforoRepository.ts:67 | An empty patch changes nothing but `updatedAt` |
| `AforoModels.AplicarCambiosIdempotente` | CarnavalLogistics/src/modules/aforo/repositories/AforoRepository.ts:67 | Applying a patch twice equals applying it once at the later instant |
| `AforoValidators.TipoRecintoDe` | CarnavalLogistics/src/modules/aforo/validators/AforoValidator.ts:10-12 | The four venue kinds the schema accepts, by name |
| `AforoValidators.RecintoCreacionValida` | CarnavalLogistics/src/modules/aforo/validators/AforoValidator.ts:6-14 | The length, capacity and kind bounds of `recintoCreateSchema`; an optional description is 1 to 500 characters, since `Joi.string()` refuses the empty string |
| `AforoValidators.RecintoAceptadoTieneCapacidadYTipo` | CarnavalLogistics/src/modules/aforo/validators/AforoValidator.ts:9-12 | An accepted venue has 0 < capacity ≤ 1 000 000 and its kind name is one of plaza/parque/estadio/auditorio, recognised as the kind of that name |
| `AforoValidators.TipoRecintoDeNombre` | CarnavalLogistics/src/modules/aforo/validators/AforoValidator.ts:10-12 | Every venue kind is recognised by its own name |
| `AforoValidators.ValidacionPersonalizada` | CarnavalLogistics/src/modules/aforo/validators/AforoValidator.ts:21-24 | The custom hook returns its value |
| `AforoValidators.ValidarOcupacionUpdate` | CarnavalLogistics/src/modules/aforo/validators/AforoValidator.ts:18-24 | An occupancy is accepted exactly when it is ≥ 0, and is passed through unchanged |
| `AforoValidators.ActualizacionNoLimitaCapacidad` | CarnavalLogistics/src/modules/aforo/validators/AforoValidator.ts:18-24 | For every capacity, the update schema accepts an occupancy above it |
| `AforoValidators.ValidateCapacidadNoExcedida` | CarnavalLogistics/src/modules/aforo/validators/AforoValidator.ts:35-37 | `ocupacion <= capacidad` |
| `AforoValidators.CapacidadExactaAceptada` | CarnavalLogistics/src/modules/aforo/validators/AforoValidator.ts:35-37 | Occupancy equal to the capacity passes; one more does not |
| `AforoRepositories.Porcentaje` | CarnavalLogistics/src/modules/aforo/repositories/AforoRepository.ts:87-91 | The result is the whole number of hundredths nearest to 10000·o/cap, a half rounded up |
| `AforoRepositories.PorcentajeAlcanza` | CarnavalLogistics/src/modules/aforo/repositories/AforoRepository.ts:87-91 | The stored percentage reaches threshold t exactly when 20000·o ≥ (2t − 1)·cap |
| `AforoRepositories.PorcentajeHasta` | CarnavalLogistics/src/modules/aforo/repositories/AforoRepository.ts:87-91 | The stored percentage is ≤ t exactly when 20000·o < (2t + 1)·cap |
| `AforoRepositories.PorcentajeExtremos` | CarnavalLogistics/src/modules/aforo/repositories/AforoRepository.ts:87-91 | Empty is 0 %, full is exactly 100 %, and within capacity never above 100 % |
| `AforoRepositories.PorcentajeMonotono` | CarnavalLogistics/src/modules/aforo/repositories/AforoRepository.ts:87-91 | More people never give a smaller percentage |
| `AforoRepositories.Activas` | CarnavalLogistics/src/modules/aforo/repositories/AforoRepository.ts:130-132 | The filter keeps exactly the unprocessed alerts of the venue |
| `AforoRepositories.MarcarProcesada` | CarnavalLogistics/src/modules/aforo/repositories/AforoRepository.ts:135-140 | The alert log with that alert flagged, still well formed |
| `AforoRepositories.MarcarProcesadaQuitaDeActivas` | CarnavalLogistics/src/modules/aforo/repositories/AforoRepository.ts:135-140 | Flagging an alert removes exactly that alert from every venue's active list, and keeps alerts stored under their ids |
| `AforoRepositories.AforoRepositoryMock.constructor` | CarnavalLogistics/src/modules/aforo/repositories/AforoRepository.ts:37-41 | Three empty tables |
| `AforoRepositories.AforoRepositoryMock.CrearRecinto` | CarnavalLogistics/src/modules/aforo/repositories/AforoRepository.ts:43-54 | Stores the venue and an occupancy record of 0 people, 0 %, no alert emitted; alerts unchanged |
| `AforoRepositories.AforoRepositoryMock.ObtenerRecinto` | CarnavalLogistics/src/modules/aforo/repositories/AforoRepository.ts:56-58 | The stored venue, or none exactly when the id is unknown |
| `AforoRepositories.AforoRepositoryMock.ObtenerTodosRecintos` | CarnavalLogistics/src/modules/aforo/repositories/AforoRepository.ts:60-62 | All venues in insertion order, one per id |
| `AforoRepositories.AforoRepositoryMock.ActualizarRecinto` | CarnavalLogistics/src/modules/aforo/repositories/AforoRepository.ts:64-70 | Fails on an unknown id; otherwise stores the merged venue with a fresh `updatedAt`; other tables unchanged |
| `AforoRepositories.AforoRepositoryMock.EliminarRecinto` | CarnavalLogistics/src/modules/aforo/repositories/AforoRepository.ts:72-74 | Answers whether the venue existed, removes it, and keeps its occupancy record |
| `AforoRepositories.AforoRepositoryMock.ObtenerOcupacionActual` | CarnavalLogistics/src/modules/aforo/repositories/AforoRepository.ts:76-78 | The stored record, or none exactly when there is none |
| `AforoRepositories.AforoRepositoryMock.ActualizarOcupacion` | CarnavalLogistics/src/modules/aforo/repositories/AforoRepository.ts:80-99 | Fails for an unknown venue. Otherwise stores the count with its rounded percentage, with no capacity check, and changes only that venue's record. |
| `AforoRepositories.AforoRepositoryMock.IncrementarOcupacion` | CarnavalLogistics/src/modules/aforo/repositories/AforoRepository.ts:101-110 | Fails without a record or a venue; otherwise the stored record is the venue's, with count old + n, its rounded percentage against the capacity, `ahora` and no alert flag; no capacity check |
| `AforoRepositories.AforoRepositoryMock.DecrementarOcupacion` | CarnavalLogistics/src/modules/aforo/repositories/AforoRepository.ts:112-121 | Fails without a record or a venue; otherwise the stored record is the venue's, with count max(0, old − n), never above the old one, its rounded percentage, `ahora` and no alert flag |
| `AforoRepositories.AforoRepositoryMock.CrearAlerta` | CarnavalLogistics/src/modules/aforo/repositories/AforoRepository.ts:123-127 | Stores the alert under its id |
| `AforoRepositories.AforoRepositoryMock.ObtenerAlertasActivas` | CarnavalLogistics/src/modules/aforo/repositories/AforoRepository.ts:129-133 | Exactly the stored alerts of that venue that are not processed, in log order |
| `AforoRepositories.AforoRepositoryMock.MarcarAlertaProcesada` | CarnavalLogistics/src/modules/aforo/repositories/AforoRepository.ts:135-140 | Sets that alert's flag, which takes exactly it out of every active list; an unknown id changes nothing |
| `AforoServices.EstadoBasadoEnPorcentaje` | CarnavalLogistics/src/modules/aforo/services/AforoService.ts:275-282 | Critical, warning and low thresholds tested in that order, else normal |
| `AforoServices.TipoAlertaPara` | CarnavalLogistics/src/modules/aforo/services/AforoService.ts:189-216 | The alert kind chosen by the alerting chain |
| `AforoServices.AlertaDeEstado` | CarnavalLogistics/src/modules/aforo/services/AforoService.ts:189-216 | The alert kind that belongs to each class |
| `AforoServices.AlertaSegunEstado` | CarnavalLogistics/src/modules/aforo/services/AforoService.ts:185-216 | The alerting chain and the classifier agree on every percentage and configuration: an alert exactly when the class is not normal, of that class's kind |
| `AforoServices.CriticoTienePrioridad` | CarnavalLogistics/src/modules/aforo/services/AforoService.ts:278 | At or above the critical threshold the class is critical and the alert is the critical one, whatever the other thresholds |
| `AforoServices.EstadoConConfiguracionInicial` | CarnavalLogistics/src/modules/aforo/services/AforoService.ts:13-17 | Under 90/75/20 %, each class stated on the counts: critical iff 20000·o ≥ 17999·cap, warning iff 14999·cap ≤ 20000·o < 17999·cap, low iff 20000·o < 4001·cap, normal otherwise |
| `AforoServices.NoventaYCincoDeCienEsCritico` | CarnavalLogistics/src/modules/aforo/services/AforoService.ts:13-17 | 95 people out of 100 are stored at 95 % and classified critical |
| `AforoServices.AlertaPara` | CarnavalLogistics/src/modules/aforo/services/AforoService.ts:185-216 | An alert exactly when the class is not normal. It is unprocessed, of the class's kind, and carries the stored percentage. |
| `AforoServices.Fila` | CarnavalLogistics/src/modules/aforo/services/AforoService.ts:260-268 | One report row |
| `AforoServices.Reporte` | CarnavalLogistics/src/modules/aforo/services/AforoService.ts:253-273 | One row per venue with an occupancy record, in order; never more rows than venues |
| `AforoServices.ReporteCompleto` | CarnavalLogistics/src/modules/aforo/services/AforoService.ts:257-270 | When every venue has a record, row i describes venue i and its stored occupancy, and no venue is skipped |
| `AforoServices.AforoService.constructor` | CarnavalLogistics/src/modules/aforo/services/AforoService.ts:13-21 | Thresholds start at 90/75/20 % and the invariant holds |
| `AforoServices.AforoService.CrearRecinto` | CarnavalLogistics/src/modules/aforo/services/AforoService.ts:26-48 | A new active venue with `createdAt = updatedAt = ahora` and an empty occupancy record; keeps the capacity invariant |
| `AforoServices.AforoService.ObtenerRecintos` | CarnavalLogistics/src/modules/aforo/services/AforoService.ts:53-55 | All venues in insertion order |
| `AforoServices.AforoService.ObtenerDetallesRecinto` | CarnavalLogistics/src/modules/aforo/services/AforoService.ts:60-75 | An unknown venue fails; a known one succeeds, with its occupancy, which is within capacity and carries the rounded percentage. |
| `AforoServices.AforoService.ActualizarOcupacion` | CarnavalLogistics/src/modules/aforo/services/AforoService.ts:81-103 | Fails for an unknown venue or a count above capacity, changing nothing. Otherwise it stores the count and percentage and appends exactly the alert `AlertaPara` gives, or none. Keeps occupancy ≤ capacity for every venue. |
| `AforoServices.AforoService.VerificarYGenerarAlertas` | CarnavalLogistics/src/modules/aforo/services/AforoService.ts:181-227 | Appends the alert `AlertaPara` gives and nothing else |
| `AforoServices.AforoService.RegistrarEntrada` | CarnavalLogistics/src/modules/aforo/services/AforoService.ts:108-131 | The count becomes old + n, or it fails (changing nothing) when that exceeds capacity or the venue is unknown; keeps the invariant |
| `AforoServices.AforoService.RegistrarSalida` | CarnavalLogistics/src/modules/aforo/services/AforoService.ts:136-147 | The count becomes max(0, old − n), with the alert of its class; keeps the invariant |
| `AforoServices.AforoService.ObtenerEstadoOcupacion` | CarnavalLogistics/src/modules/aforo/services/AforoService.ts:152-169 | An unknown venue fails; a known one succeeds, and its own if-chain yields the same class as `obtenerEstadoBasadoEnPorcentaje` on the stored percentage |
| `AforoServices.AforoService.ObtenerAlertasRecinto` | CarnavalLogistics/src/modules/aforo/services/AforoService.ts:174-176 | Exactly the venue's unprocessed alerts, in log order (`Activas` over the log) |
| `AforoServices.AforoService.GetConfiguracion` | CarnavalLogistics/src/modules/aforo/services/AforoService.ts:232-234 | The current thresholds |
| `AforoServices.AforoService.UpdateConfiguracion` | CarnavalLogistics/src/modules/aforo/services/AforoService.ts:239-241 | Each threshold given is overwritten; each one not given stays |
| `AforoServices.AforoService.GenerarReporteOcupacion` | CarnavalLogistics/src/modules/aforo/services/AforoService.ts:253-273 | One row per venue in table order, each within capacity and classified as `obtenerEstadoBasadoEnPorcentaje` would classify it |
| `PermisosModels.NombreEstadoInyectivo` | CarnavalLogistics/src/modules/permisos/models/Permiso.ts:26 | Two statuses have the same name exactly when they are the same status |
| `PermisosModels.AplicarCambiosComerciante` | CarnavalLogistics/src/modules/permisos/repositories/PermisosRepository.ts:71 | `{ ...comerciante, ...updates }` |
| `PermisosModels.CambioDeEstadoComerciante` | CarnavalLogistics/src/modules/permisos/services/PermisosService.ts:255-257 | A status-only patch changes only the status |
| `PermisosModels.CambiosComercianteIdempotentes` | CarnavalLogistics/src/modules/permisos/repositories/PermisosRepository.ts:71 | Merging a vendor patch twice equals merging it once |
| `PermisosModels.AplicarCambiosSolicitud` | CarnavalLogistics/src/modules/permisos/repositories/PermisosRepository.ts:103 | `{ ...solicitud, ...updates }` |
| `PermisosModels.CambiosSolicitudIdempotentes` | CarnavalLogistics/src/modules/permisos/repositories/PermisosRepository.ts:103 | The empty patch changes nothing; merging a patch twice equals merging it once |
| `PermisosModels.Transicion` | CarnavalLogistics/src/modules/permisos/services/PermisosService.ts:129-211 | A call is accepted exactly when the request is pending or the call is a cancellation, and never leads back to pending |
| `PermisosModels.Recorrido` | CarnavalLogistics/src/modules/permisos/services/PermisosService.ts:129-211 | The status after a series of calls |
| `PermisosModels.AprobarDosVecesFalla` | CarnavalLogistics/src/modules/permisos/services/PermisosService.ts:134-136 | Approving twice fails the second time |
| `PermisosModels.NuncaVuelveAPendiente` | CarnavalLogistics/src/modules/permisos/services/PermisosService.ts:129-211 | No series of calls brings a decided request back to pending |
| `PermisosModels.DecididoSoloSeCancela` | CarnavalLogistics/src/modules/permisos/services/PermisosService.ts:200-211 | An approved or rejected request can only stay as it is or become cancelled; a cancelled one stays cancelled |
| `PermisosValidators.Solapan` | CarnavalLogistics/src/modules/permisos/validators/PermisosValidator.ts:43 | The per-period overlap test |
| `PermisosValidators.SolapanSiCompartenPunto` | CarnavalLogistics/src/modules/permisos/validators/PermisosValidator.ts:43 | For well-formed periods, the test holds exactly when the two closed periods share an instant |
| `PermisosValidators.ExtremoCompartidoSolapa` | CarnavalLogistics/src/modules/permisos/validators/PermisosValidator.ts:43 | Periods that only share an endpoint overlap |
| `PermisosValidators.ValidateFechasNoSolapadas` | CarnavalLogistics/src/modules/permisos/validators/PermisosValidator.ts:37-48 | True exactly when no existing period overlaps, and true for an empty list |
| `PermisosValidators.TipoProductoDe` | CarnavalLogistics/src/modules/permisos/validators/PermisosValidator.ts:17-19 | A recognised category has the name it was looked up by |
| `PermisosValidators.TipoProductoDeNombre` | CarnavalLogistics/src/modules/permisos/validators/PermisosValidator.ts:17-19 | Every category is recognised by its own name |
| `PermisosValidators.SolicitudPermisoValida` | CarnavalLogistics/src/modules/permisos/validators/PermisosValidator.ts:15-27 | The numeric, length, date and category bounds of `solicitudPermisoSchema` |
| `PermisosValidators.SolicitudAceptada` | CarnavalLogistics/src/modules/permisos/validators/PermisosValidator.ts:17-24 | An accepted request has 0 < area ≤ 500, `fechaInicio < fechaFin`, and one of the five categories |
| `PermisosRepositories.ConEstado` | CarnavalLogistics/src/modules/permisos/repositories/PermisosRepository.ts:109-111 | The status filter; never longer than its input |
| `PermisosRepositories.ConEstadoMiembros` | CarnavalLogistics/src/modules/permisos/repositories/PermisosRepository.ts:109-111 | The filter keeps exactly the requests whose status has that name |
| `PermisosRepositories.ConEstadoEnTabla` | CarnavalLogistics/src/modules/permisos/repositories/PermisosRepository.ts:109-111 | Filtering the table's values keeps exactly the stored requests with that status name |
| `PermisosRepositories.EstadoDesconocidoVacio` | CarnavalLogistics/src/modules/permisos/repositories/PermisosRepository.ts:109-111 | A name outside the four statuses matches nothing |
| `PermisosRepositories.ParticionPorEstado` | CarnavalLogistics/src/modules/permisos/services/PermisosService.ts:232-242 | The four status filters together hold exactly as many requests as the table |
| `PermisosRepositories.DelComerciante` | CarnavalLogistics/src/modules/permisos/repositories/PermisosRepository.ts:87-89 | Keeps exactly the requests of that vendor |
| `PermisosRepositories.PermisosRepositoryMock.constructor` | CarnavalLogistics/src/modules/permisos/repositories/PermisosRepository.ts:40-44 | Three empty tables |
| `PermisosRepositories.PermisosRepositoryMock.CrearComerciante` | CarnavalLogistics/src/modules/permisos/repositories/PermisosRepository.ts:46-50 | Stores the vendor under its id, where a lookup then finds it |
| `PermisosRepositories.PermisosRepositoryMock.ObtenerComerciante` | CarnavalLogistics/src/modules/permisos/repositories/PermisosRepository.ts:52-54 | The stored vendor, or none exactly when the id is unknown |
| `PermisosRepositories.PermisosRepositoryMock.ObtenerTodosComerciantes` | CarnavalLogistics/src/modules/permisos/repositories/PermisosRepository.ts:56-58 | All vendors in registration order, one per id |
| `PermisosRepositories.PermisosRepositoryMock.ListarComerciantes` | CarnavalLogistics/src/modules/permisos/repositories/PermisosRepository.ts:60-62 | The same list as `obtenerTodosComerciantes` |
| `PermisosRepositories.PermisosRepositoryMock.ActualizarComerciante` | CarnavalLogistics/src/modules/permisos/repositories/PermisosRepository.ts:64-74 | Fails on an unknown id; otherwise stores the merged vendor under the same key; the set of ids does not change |
| `PermisosRepositories.PermisosRepositoryMock.CrearSolicitud` | CarnavalLogistics/src/modules/permisos/repositories/PermisosRepository.ts:76-80 | Stores the request, where `obtenerSolicitud` then finds it |
| `PermisosRepositories.PermisosRepositoryMock.ObtenerSolicitud` | CarnavalLogistics/src/modules/permisos/repositories/PermisosRepository.ts:82-84 | The stored request, or none exactly when the id is unknown |
| `PermisosRepositories.PermisosRepositoryMock.ObtenerSolicitudesComerciante` | CarnavalLogistics/src/modules/permisos/repositories/PermisosRepository.ts:86-90 | Exactly the stored requests of that vendor |
| `PermisosRepositories.PermisosRepositoryMock.ObtenerSolicitudesPendientes` | CarnavalLogistics/src/modules/permisos/repositories/PermisosRepository.ts:92-94 | The same list as the status filter with "pendiente" |
| `PermisosRepositories.PermisosRepositoryMock.ActualizarSolicitud` | CarnavalLogistics/src/modules/permisos/repositories/PermisosRepository.ts:96-107 | Fails on an unknown id. Otherwise stores the merged request and leaves every other request and both other tables unchanged. |
| `PermisosRepositories.PermisosRepositoryMock.ObtenerSolicitudesPorEstado` | CarnavalLogistics/src/modules/permisos/repositories/PermisosRepository.ts:109-111 | The status filter over the stored requests in table order |
| `PermisosRepositories.PermisosRepositoryMock.RegistrarAprobacion` | CarnavalLogistics/src/modules/permisos/repositories/PermisosRepository.ts:113-117 | Stores the approval under its request id, where `obtenerAprobacion` then finds it |
| `PermisosRepositories.PermisosRepositoryMock.ObtenerAprobacion` | CarnavalLogistics/src/modules/permisos/repositories/PermisosRepository.ts:119-121 | The stored approval, or none exactly when there is none |
| `PermisosServices.TarifaPorMetro` | CarnavalLogistics/src/modules/permisos/services/PermisosService.ts:293-299 | The rate of a category is one of 50/40/30/60/25, and 25 exactly for "otro" |
| `PermisosServices.TarifaDeNombre` | CarnavalLogistics/src/modules/permisos/services/PermisosService.ts:301 | `tarifasBase[nombre] \|\| 25` on any name: no rate (a NaN fee) exactly for the names inherited from `Object.prototype` |
| `PermisosServices.TarifaDeCategoria` | CarnavalLogistics/src/modules/permisos/services/PermisosService.ts:293-301 | Looked up by its name, each category gets its table rate |
| `PermisosServices.CalcularTarifa` | CarnavalLogistics/src/modules/permisos/services/PermisosService.ts:292-310 | For every category, a positive area gives a positive fee |
| `PermisosServices.TarifaDesconocida` | CarnavalLogistics/src/modules/permisos/services/PermisosService.ts:301 | A name neither listed nor inherited is charged 25 per m², like "otro" |
| `PermisosServices.TarifaEjemplos` | CarnavalLogistics/src/modules/permisos/services/PermisosService.ts:292-310 | Worked fees 2500, 6750, 600, 1000 and 10800; "mariscos" is charged 25 per m², "constructor" has no rate |
| `PermisosServices.TarifaAcotada` | CarnavalLogistics/src/modules/permisos/services/PermisosService.ts:292-310 | For 0 < area ≤ 500 the fee lies between 22.5 and 60 per m², and never exceeds 27000 |
| `PermisosServices.TarifaMonotonaPorTramo` | CarnavalLogistics/src/modules/permisos/services/PermisosService.ts:302-309 | On each side of 100 m² the fee grows with the area |
| `PermisosServices.SaltoDelDescuento` | CarnavalLogistics/src/modules/permisos/services/PermisosService.ts:305-307 | Across the discount a larger stand is cheaper: 101 m² costs less than 100 m² |
| `PermisosServices.Digitos` | CarnavalLogistics/src/modules/permisos/services/PermisosService.ts:316 | A number on exactly that many decimal digits |
| `PermisosServices.DigitosSeLeen` | CarnavalLogistics/src/modules/permisos/services/PermisosService.ts:316 | Padded digits read back as the number when it fits |
| `PermisosServices.SinGuiones` | CarnavalLogistics/src/modules/permisos/services/PermisosService.ts:316 | `replace(/-/g, '')` leaves no hyphen and never lengthens the string |
| `PermisosServices.SinGuionesConcatena` | CarnavalLogistics/src/modules/permisos/services/PermisosService.ts:316 | Removing hyphens distributes over concatenation |
| `PermisosServices.FechaIso` | CarnavalLogistics/src/modules/permisos/services/PermisosService.ts:316 | `toISOString().slice(0, 10)` is ten characters, YYYY-MM-DD |
| `PermisosServices.FechaSinGuiones` | CarnavalLogistics/src/modules/permisos/services/PermisosService.ts:316 | Without hyphens the date is the eight digits YYYYMMDD |
| `PermisosServices.NumeroPermiso` | CarnavalLogistics/src/modules/permisos/services/PermisosService.ts:315-319 | "PERM-", then eight digits YYYYMMDD of the date, then "-", then the suffix; length 14 plus the suffix's |
| `PermisosServices.NumeroPermisoLlevaLaFecha` | CarnavalLogistics/src/modules/permisos/services/PermisosService.ts:315-319 | For a four-digit year, the digits of the number read back as the approval's year, month and day |
| `PermisosServices.SumaMontos` | CarnavalLogistics/src/modules/permisos/services/PermisosService.ts:239 | The reduce over amounts |
| `PermisosServices.IngresoPositivo` | CarnavalLogistics/src/modules/permisos/services/PermisosService.ts:239 | With positive amounts the income is positive exactly when the list is not empty |
| `PermisosServices.Ocupa` | CarnavalLogistics/src/modules/permisos/services/PermisosService.ts:278-281 | An approved request at the location whose period overlaps |
| `PermisosServices.Disponible` | CarnavalLogistics/src/modules/permisos/services/PermisosService.ts:277-284 | No listed request at the location overlaps the period |
| `PermisosServices.DisponibleSegunTabla` | CarnavalLogistics/src/modules/permisos/services/PermisosService.ts:274-286 | Searching the approved list is the same as asking that no stored request be approved, at the location and overlapping |
| `PermisosServices.PeriodosEn` | CarnavalLogistics/src/modules/permisos/validators/PermisosValidator.ts:40 | The periods of the requests at a location |
| `PermisosServices.SinSolape` | CarnavalLogistics/src/modules/permisos/validators/PermisosValidator.ts:42-47 | What `validateFechasNoSolapadas` answers |
| `PermisosServices.SinSolapeCons` | CarnavalLogistics/src/modules/permisos/validators/PermisosValidator.ts:42-47 | The answer for a list is the test on its head and the answer on its tail |
| `PermisosServices.DisponibleComoValidador` | CarnavalLogistics/src/modules/permisos/services/PermisosService.ts:277-284 | Availability is the validator's overlap search over the periods already granted at the location |
| `PermisosServices.SolicitudesConsistentes` | CarnavalLogistics/src/modules/permisos/services/PermisosService.ts:82-95 | The service invariant over requests, vendors, fees and approvals |
| `PermisosServices.NuevaSolicitud` | CarnavalLogistics/src/modules/permisos/services/PermisosService.ts:82-95 | The request `crearSolicitud` builds |
| `PermisosServices.PermisosService.constructor` | CarnavalLogistics/src/modules/permisos/services/PermisosService.ts:12-15 | A service over a repository that keeps the invariant |
| `PermisosServices.PermisosService.RegistrarComerciante` | CarnavalLogistics/src/modules/permisos/services/PermisosService.ts:20-42 | Stores an active vendor registered at `ahora` |
| `PermisosServices.PermisosService.ObtenerComerciante` | CarnavalLogistics/src/modules/permisos/services/PermisosService.ts:47-53 | Not-found exactly when the id is unknown; a stored id gives `Ok` with the stored vendor |
| `PermisosServices.PermisosService.CrearSolicitud` | CarnavalLogistics/src/modules/permisos/services/PermisosService.ts:58-105 | Fails, changing nothing, for an unknown or blocked vendor. Otherwise stores a pending request whose amount is the computed fee. |
| `PermisosServices.PermisosService.ObtenerSolicitudesComerciante` | CarnavalLogistics/src/modules/permisos/services/PermisosService.ts:110-112 | Exactly the stored requests of that vendor, in table order |
| `PermisosServices.PermisosService.ObtenerSolicitudesPendientes` | CarnavalLogistics/src/modules/permisos/services/PermisosService.ts:117-119 | Exactly the stored pending requests, in table order |
| `PermisosServices.PermisosService.AprobarSolicitud` | CarnavalLogistics/src/modules/permisos/services/PermisosService.ts:124-165 | Fails, changing nothing, for an unknown or non-pending request. Otherwise the request becomes approved at `ahora`, and one approval carrying the permit number is recorded under its id. The result follows `Transicion`. |
| `PermisosServices.PermisosService.RechazarSolicitud` | CarnavalLogistics/src/modules/permisos/services/PermisosService.ts:170-195 | Fails, changing nothing, for an unknown or non-pending request; otherwise the request becomes rejected with the reason |
| `PermisosServices.PermisosService.CancelarSolicitud` | CarnavalLogistics/src/modules/permisos/services/PermisosService.ts:200-219 | Fails only for an unknown request; otherwise any status becomes cancelled |
| `PermisosServices.PermisosService.ObtenerEstadisticas` | CarnavalLogistics/src/modules/permisos/services/PermisosService.ts:224-249 | Each count is its status filter's length. The total is their sum and the number of stored requests. The income is the sum over approved requests only. |
| `PermisosServices.PermisosService.BloquearComerciante` | CarnavalLogistics/src/modules/permisos/services/PermisosService.ts:254-263 | Fails for an unknown vendor; otherwise only that vendor's status changes, to blocked |
| `PermisosServices.PermisosService.ValidarUbicacionDisponible` | CarnavalLogistics/src/modules/permisos/services/PermisosService.ts:268-287 | False exactly when some stored approved request at the location has a period overlapping the query, endpoints included |
| `PermisosServices.PermisosService.SolicitarPermiso` | CarnavalLogistics/src/modules/permisos/controllers/PermisosController.ts:92-148 | Schema bounds, then availability, then creation. A failed check changes nothing. For a valid request, the location error comes exactly when an approved overlapping request exists. A valid, available request fails with not-found for an unknown vendor and with blocked for a blocked one, changing nothing, and is created otherwise. A created request passed both checks and is the pending request `crearSolicitud` builds from exactly the given vendor, category, description, dates, location, area and documents, with the fee of its category, which is > 0 and ≤ 27000. |

## Left out

- Event emission and subscription are not modelled: the `eventEmitter.emit` calls, `onAlert` and `onSolicitudAprobada`. They are in-process callbacks with no effect on the tables.
- Controllers, routes, middleware, application start-up, the logger and both front ends are left out. They are HTTP, console and browser I/O. The one controller flow that combines service calls is `SolicitarPermiso`.
- The Joi machinery is left out. This covers the e-mail, uuid and uri formats, the error lists of `abortEarly: false`, and the type coercion of request bodies. Only the numeric, length and enumeration bounds are kept, and a failed schema is one `ValidacionFallida` error.
- `comercianteSchema` (the vendor registration body) is not part of this model; `registrarComerciante` stores what it is given.
- `PermisosServices.CalcularTarifa` takes a category, as every caller passes one the schema accepted. The lookup on an arbitrary name, with its `|| 25` fallback and the NaN fee of an inherited name, is `TarifaDeNombre`.
- String lengths are Dafny sequence lengths, counted in characters. Joi's `min` and `max` count UTF-16 code units, so a character outside the Basic Multilingual Plane counts once here and twice there.
- `AforoModels.Recinto` capacities are positive whole numbers (`Capacidad`). `recintoCreateSchema` accepts any positive number up to 1 000 000, fractions included. `AforoRepositories.AforoRepositoryMock.ActualizarRecinto` therefore cannot store a fractional, zero or negative capacity, which the code stores unchecked and which would make a later percentage a division by zero.
- `AforoServices.AforoService.RegistrarEntrada` and `RegistrarSalida` take the count explicitly; the default `cantidad = 1` of the code is not modelled.
- Floating point is not reproduced:
  - The stored percentage is exact integer hundredths, rounded half up.
  - Fees, areas and the income sum are exact reals, so the rounding and summation order of IEEE doubles is not modelled.
- Counts are `nat`, so negative and fractional occupancies and amounts are outside the model. The controllers' integer and positivity guards become these types.
- Statuses, categories and venue kinds are datatypes, so a stored record cannot carry a string outside its enumeration. `ObtenerSolicitudesPorEstado` still takes any string.
- `uuidv4`, `new Date()` and `Math.random` become parameters:
  - The random suffix is any string; its six upper-case base-36 characters are not stated.
  - The calendar date `hoy` of the permit number is passed alongside the instant `ahora`, and the agreement between the two is not modelled.
  - A year above 9999, which `toISOString` writes with a sign and six digits, is written as its last four digits.
  - `aprobarSolicitud` calls `new Date()` twice, and `crearRecinto` three times (`createdAt`, `updatedAt`, and the occupancy record's `ultimaActualizacion`). `actualizarOcupacion`, `registrarEntrada` and `registrarSalida` take one instant for the occupancy record's `ultimaActualizacion` and another for the alert's `timestamp`. The model uses one `ahora` for all of them, so `AforoServices.AforoService.ActualizarOcupacion`, `RegistrarEntrada` and `RegistrarSalida` give the record and its alert the same instant.
- `AforoServices.AforoService.ActualizarOcupacion`, `RegistrarEntrada` and `RegistrarSalida` require an alert id not already in the log. `PermisosServices.PermisosService.CrearSolicitud` and `SolicitarPermiso` require a request id not already stored. This stands in for the freshness of `uuidv4`; a collision is not modelled.
- Aliasing is not modelled. `marcarAlertaProcesada` mutates the stored alert object, which arrays returned earlier share. The model updates the table only, so earlier results do not change. `AforoServices.AforoService.GetConfiguracion` returns a copy of the thresholds, whereas `getConfiguracion` returns the service's own object, through which a caller could change them.
- A patch that sets a required field to `undefined` explicitly (for example `{ estado: undefined }`) is not modelled. Optional fields (`descripcion`, `razonRechazo`, `fechaAprobacion`) can be patched to `undefined`.
- `PermisosServices.PermisosService.ObtenerSolicitudesComerciante`, `ObtenerSolicitudesPendientes`, `ObtenerEstadisticas` and `ValidarUbicacionDisponible` require only the repository's well-formedness (distinct keys listing exactly the stored ids), not the full service invariant. They do not depend on it.
