# gestor_de_rutas in Dafny

gestor_de_rutas is a small Python route planner for Alicante. Users register and log in. They
create walking, cycling or driving routes, either by typing addresses or at random. Routes are
saved as JSON documents, filtered by difficulty, distance, duration and transport mode, and
associated with users. Two users count as friends when they share a route.

The repository carries the same bookkeeping in several revisions. This project models each of
them, one Dafny module per source file:

- **The JSON-file revision.** `usuario.py` keeps the users in `usuarios.json`; `api/usuarios.py`
  and `api/rutas.py` are its HTTP handlers. `ruta.py`, `ruta_manual.py`, `ruta_auto.py` and
  `gestor_rutas.py` compute, create and filter routes, and `geocodificador.py` turns addresses
  into coordinates.
- **The Flask/SQLAlchemy application in `miapp.py`.** It has a `usuarios` table, a
  `usuario_rutas` table, its own route filters and route makers, and its own handlers.
- **The sqlite revision.** `migracion_db.py` lays out `miapp.db` and migrates `usuarios.json`
  into it, and `usuario_db.py` runs the user operations against those tables.

Modelling conventions:

- **Records and files.** A user record and a route document are datatypes. A table is the
  sequence of its rows in rowid order plus the next id its AUTOINCREMENT counter hands out. A
  folder of route files is a map from route name to document. `usuarios.json` is an optional
  list of records, absent while the file does not exist.
- **Objects that change state.** Objects whose fields the source updates are classes with
  `modifies` clauses: `Ruta.Ruta`, `Usuario.Usuario`, `Usuario.Almacen`, `MiappDb.Base`,
  `MiappRutas.Carpetas` and `MigracionDb.BaseDatos`. Loops that build lists or insert rows are
  methods with loop invariants. Each one is proved against a function or a predicate that states
  the whole result or the whole new state. For the association loop of `crear_rutas_automaticas`
  that is a statement about which (user, route) pairs the table holds afterwards, not about its
  row order.
- **Errors and handlers.** Python exceptions become a `Result` with an `Error` value. An HTTP
  handler returns a status code and a JSON body.
- **The outside world.** The geocoding service, the street graph's nearest-node and
  shortest-path queries, `float()` of text and `%.2f` formatting are oracle functions passed as
  parameters. The clock is a parameter. Random draws are either parameters or nondeterministic
  choices that the contracts constrain.
- **Numbers.** Kilometres and hours are `real`, so the thresholds and divisions are exact.

## Model

| member | source | states |
|---|---|---|
| Geocodificador.Query | geocodificador.py:45 | the query sent is the address followed by ", Alicante, Spain" |
| Geocodificador.ObtenerCoordenadas | geocodificador.py:28-60 | a coordinate is returned exactly when the service matches and the hit lies in 38.22..38.40 × -0.51..-0.43; it is then the service's hit; no match, a hit outside the box or a service error gives None |
| Geocodificador.QueryDeterminesAnswer | geocodificador.py:45-55 | different addresses never share a query, and the answer depends on the address alone |
| Fechas.IsoPosiciones | usuario.py:101-105 | `isoformat` writes zero-padded `YYYY-MM-DDTHH:MM:SS`, followed by `.ffffff` exactly when the microseconds are not zero |
| Fechas.IsoIdaVuelta | usuario.py:77-105 | a date-time saved as ISO text by `guardar_usuarios` is read back by `cargar_usuarios` as the same date-time |
| Fechas.IsoCanonica | usuario.py:77-105 | loading and saving again reproduces the stored ISO text |
| Fechas.StrftimeIdaVuelta | ruta.py:191 | the `%Y-%m-%d %H:%M:%S` text of a date-time parses back to it without its microseconds |
| GestorRutas.PorDificultad | gestor_rutas.py:54-67 | succeeds unless some route holds a non-text difficulty; then returns the routes whose difficulty equals the argument ignoring case (missing reads as ""), in original order, each as many times as it occurs and no other |
| GestorRutas.PorDistanciaExacta | gestor_rutas.py:69-90 | the distance filter keeps, in order, the routes whose parsed distance exists and is at most `max_km`, each as many times as it occurs; the rest are skipped |
| GestorRutas.PorDistanciaMonotona | gestor_rutas.py:86 | raising `max_km` never removes a route |
| GestorRutas.DistanciaDeTexto | gestor_rutas.py:85 | for a stored "<number> km" the value compared is `float` of the number |
| GestorRutas.PorDuracionExacta | gestor_rutas.py:92-123 | the duration filter keeps, in order, the routes whose parsed duration exists and is at most `max_horas`, each as many times as it occurs; the rest are skipped |
| GestorRutas.PorDuracionMonotona | gestor_rutas.py:119 | raising `max_horas` never removes a route |
| GestorRutas.ParseHorasMinutos | gestor_rutas.py:108-118 | "H h M min" parses to H + M/60 |
| GestorRutas.ParseMinutos | gestor_rutas.py:108-118 | "M min" parses to M/60 |
| GestorRutas.DuracionIdaVuelta | gestor_rutas.py:108-118 | the duration text `guardar_en_json` writes for d ≥ 0 parses back to h′ with d − 1/60 < h′ ≤ d |
| GestorRutas.PorTransporte | gestor_rutas.py:125-145 | AttributeError iff some mode is not text; otherwise ValueError iff no route has the mode (ignoring case); otherwise the routes with that mode, in order, each as many times as it occurs, and non-empty; it succeeds exactly when every mode is text and some route has the requested one, and fails only with those two errors |
| GestorRutas.TransporteSinRutas | gestor_rutas.py:139-143 | with no routes loaded every mode raises ValueError |
| GestorRutas.GestorRutas.constructor | gestor_rutas.py:22-25 | the manager holds the directory and the routes read from it |
| GestorRutas.GestorRutas.FiltrarPorDistancia | gestor_rutas.py:82-90 | the append loop returns the distance filter's selection |
| GestorRutas.GestorRutas.FiltrarPorDuracion | gestor_rutas.py:105-123 | the append loop returns the duration filter's selection |
| Ruta.CalcularDificultad | ruta.py:136-150 | "bajo" iff distance < 10, "medio" iff 10 ≤ distance < 20, "alto" iff distance ≥ 20 |
| Ruta.DificultadMonotona | ruta.py:145-150 | a longer route is never rated easier |
| Ruta.CalcularDuracion | ruta.py:152-169 | defined exactly for walk, bike and drive, and then duration × speed (5, 15, 30) = distance; any other mode raises ValueError |
| Ruta.Trunc | ruta.py:181-182 | `int()` of a float truncates toward zero |
| Ruta.DuracionStrPartes | ruta.py:180-183 | with H = int(d) and M = int((d − H)·60), 0 ≤ M ≤ 59, H + M/60 ≤ d < H + (M+1)/60, and the text is "H h M min" when H > 0, else "M min" |
| Ruta.RutaNodos | ruta.py:124-128 | the waypoints are the nearest nodes of origin, each intermediate in order, and destination |
| Ruta.SumaTramosFallo | ruta.py:130-132 | a leg without a path makes the whole distance fail |
| Ruta.SumaTramosPartida | ruta.py:130-132 | the total splits at any waypoint into the sums of the two parts |
| Ruta.SumaTramosNoNegativa | ruta.py:130-134 | with non-negative leg lengths the total is non-negative |
| Ruta.SumaTramosSinCamino | ruta.py:130-132 | a failing total has a consecutive pair of nodes with no path between them |
| Ruta.SumaTramosTotal | ruta.py:130-132 | when every two nodes are joined by a path the total is defined |
| Ruta.DistanciaFallos | ruta.py:124-134 | the distance raises TypeError exactly when an end was not placed, otherwise only NoPath, and then some pair of nodes has no path |
| Ruta.GuardableCompleto | ruta.py:113-134 | placed ends, a graph where every two nodes are joined and a valid mode make the route savable |
| Ruta.TramosKm | ruta.py:211-217 | one kilometre entry per leg that succeeds, at most one per leg |
| Ruta.Tiempos | ruta.py:219-221 | one time per leg, with time × speed = leg km |
| Ruta.TramosSuman | ruta.py:211-217 | when every leg succeeds there are len(waypoints) − 1 entries and they add up to the total distance |
| Ruta.TiemposSuman | ruta.py:219-221 | per-leg times add up to the route's duration for walk and bike, and to half of it for drive (speed 60 against 30) |
| Ruta.ComoRegistro | ruta.py:185-196 | the saved document has exactly the ten keys of `guardar_en_json`: the distance and duration texts, difficulty, mode, name and registration text as given, and the origin and destination as the address strings rather than coordinates |
| Ruta.PuntosIntermedios | ruta.py:101-104 | at most one point per address, every point inside the Alicante box, and every address's coordinates in order when all are placed |
| Ruta.PuntosColocados | ruta.py:101-104 | the intermediates are exactly the coordinates of the placed addresses, one per placed address, in input order |
| Ruta.CalcularTramos | ruta.py:207-223 | the per-leg loop yields the leg paths, kilometres and times of the specification functions |
| Ruta.Ruta.constructor | ruta.py:51-111 | fields as given; origin, destination and intermediates geocoded; per-leg lists empty |
| Ruta.Ruta.CalcularDistancia | ruta.py:113-134 | the accumulation loop returns the summed leg lengths / 1000, or the failure of a leg |
| Ruta.Ruta.GuardarEnJson | ruta.py:171-228 | a failing distance or an invalid mode raises and leaves the lists; otherwise distance, difficulty and duration are recomputed, the document is returned and the per-leg lists are rebuilt |
| RutaAuto.Mensajes | ruta_auto.py:53 | the i-th message announces route `ruta_auto_<i+1>` |
| RutaAuto.Candidatos | ruta_auto.py:31 | intermediate candidates are addresses other than origin and destination |
| RutaAuto.CandidatosDistintas | ruta_auto.py:31 | with distinct addresses the candidates are all addresses minus the ends present |
| RutaAuto.MuestraPosible | ruta_auto.py:30-31 | with distinct addresses and two distinct ends there are n − 2 candidates, enough for a sample of min(2, n − 2) |
| RutaAuto.GeneradaIntermedios | ruta_auto.py:31 | every sampled intermediate is an address different from both ends |
| RutaAuto.Elegir | ruta_auto.py:30-32 | ends from two distinct positions, a sample of min(2, n − 2) candidates, a mode among walk/bike/drive; ValueError only when addresses repeat |
| RutaAuto.GenerarUna | ruta_auto.py:30-52 | one iteration saves a route with those choices; it fails only with TypeError when some address is not placed, NoPath when some two nodes have no path, or the sample's ValueError for repeated addresses; distinct, placed addresses in a connected graph always give a route |
| RutaAuto.RutaAuto.constructor | ruta_auto.py:7-10 | the generator keeps its directory |
| RutaAuto.RutaAuto.GenerarRutasDesdeDirecciones | ruta_auto.py:12-55 | fewer than two addresses give the warning and no route; otherwise `cantidad` routes (none if negative) named `ruta_auto_1`… with one message each, or an error after fewer, which is one of the errors of `GenerarUna` with its cause in the inputs; distinct, placed addresses in a connected graph always give all `cantidad` routes |
| RutaManual.NombreRuta | ruta_manual.py:35-36 | a non-empty name is kept |
| RutaManual.NombreRutaSegundos | ruta_manual.py:35-36 | a missing or empty name becomes `ruta_manual_<seconds>`, from which the seconds read back |
| RutaManual.ArchivosDe | ruta_manual.py:57-75 | the PDF is named by the route, the GPX and HTML by the timestamp |
| RutaManual.Envuelto | ruta_manual.py:101-102 | every failure is re-raised with "Error al crear la ruta: " before the original message |
| RutaManual.AsociarAsWritten | ruta_manual.py:78-86 | the association step as written fails exactly when a username is given |
| RutaManual.AsociarAsWrittenFalla | ruta_manual.py:78-79 | for any non-empty username it raises NameError for `Usuario` |
| RutaManual.AnadirRutaEfecto | ruta_manual.py:80-86 | the first user with the username gets the name appended (the list is created if absent); every other record and field is unchanged |
| RutaManual.AnadirGuardarCargar | ruta_manual.py:79-85 | saving the updated list and loading it again gives the updated list |
| RutaManual.AsociadoCarga | ruta_manual.py:78-86 | the intended association, through saving and loading, appends the name to exactly that user's routes |
| RutaManual.AsociarObjeto | ruta_manual.py:78-86 | given a user object instead of a name, the step matches no record and leaves the file as it was |
| RutaManual.Asociar | ruta_manual.py:78-86 | the association method leaves the file as the intended association describes, or unchanged on an error |
| RutaManual.CrearRutaDesdeDatos | ruta_manual.py:9-102 | the route is saved exactly when its distance is defined and its mode is valid, and the call succeeds exactly when it is saved and the association succeeds; a saved route echoes name, ends, mode and intermediates with the three export paths; every failure is wrapped; no route saved means nothing associated |
| Usuario.Leer | usuario.py:77-81 | loading a record replaces a text registration date by `fromisoformat` of it, raising exactly when the text is not ISO; every other field, and a record without a text date, is kept as it is |
| Usuario.LeerTodos | usuario.py:73-82 | the list loads iff every record does, record by record |
| Usuario.PrimerError | usuario.py:77-81 | loading stops with the error of the first bad record |
| Usuario.Serializar | usuario.py:101-105 | saving writes each record with its date as text |
| Usuario.GuardarCargar | usuario.py:77-105 | saving loaded records and loading them again gives the same records |
| Usuario.LeerEscribir | usuario.py:101-105 | a loaded record survives being written and read back |
| Usuario.CargarGuardar | usuario.py:77-105 | a file in the saved form loads and saves back unchanged |
| Usuario.PrimeraSesion | usuario.py:162-167 | the first record matching both username and password, and None exactly when none matches |
| Usuario.PrimeraSesionEs | usuario.py:163-165 | the first matching position is the one found |
| Usuario.Primero | usuario.py:57-60 | the first record with the username, None exactly when the name is absent |
| Usuario.ActualizarSoloRutas | usuario.py:55-61 | saving a user changes only the `rutas` of the first record with that username; nothing changes when it is absent |
| Usuario.AmigosSimetrico | usuario.py:123-128 | being friends is symmetric |
| Usuario.AmigosIrreflexivo | usuario.py:123-128 | with unique usernames nobody is their own friend |
| Usuario.VisitarCorrecto | usuario.py:124-128 | every friend added by the pair loop is a pair with a shared route |
| Usuario.VisitarCompleto | usuario.py:124-128 | after visiting a pair with a shared route, both are in each other's lists |
| Usuario.VisitarSinRepetidos | usuario.py:124-128 | with unique usernames no friend is listed twice |
| Usuario.AmigosFinal | usuario.py:123-130 | after all pairs, v is in u's list exactly when u and v are different records sharing a route |
| Usuario.VisitarFila | usuario.py:124-128 | the inner loop over the rows after row i keeps every pair already visited and records row i against each later row |
| Usuario.Nuevo | usuario.py:141-152 | a new record has the given username and password, an ISO registration date and no routes |
| Usuario.RegistroUnico | usuario.py:138-154 | unique usernames stay unique after a registration |
| Usuario.RegistroConserva | usuario.py:153-154 | registering appends exactly one record and leaves the earlier ones as stored |
| Usuario.Usuario.constructor | usuario.py:6-45 | fields as given, routes from the record (empty if absent), no friends |
| Usuario.Usuario.GuardarEnJson | usuario.py:47-61 | the file is rewritten with only this user's routes replaced, or left as it was when loading fails |
| Usuario.Almacen.CargarUsuarios | usuario.py:63-84 | loading yields the parsed records, [] when the file is missing, or the parse error |
| Usuario.Almacen.GuardarUsuarios | usuario.py:86-107 | the file holds the serialised records |
| Usuario.Almacen.RegistrarUsuario | usuario.py:132-155 | False with the file unchanged when the username exists; otherwise True and exactly one new record appended |
| Usuario.Almacen.IniciarSesion | usuario.py:157-167 | a user object exactly when some record matches both fields, built from the first such record with all its fields, its routes and no friends |
| Usuario.Almacen.Amigos | usuario.py:110-130 | one key per username; v in amigos[u] iff they share a route; no repeats with unique usernames; KeyError when a record lacks `rutas` and there is a pair to compare |
| ApiUsuarios.Registrar | api/usuarios.py:25-32 | 400 exactly when the username is taken, with the file unchanged; 200 otherwise, with the new record appended to the saved list; 500 with the file unchanged when it cannot be loaded |
| ApiUsuarios.Login | api/usuarios.py:54-58 | 401 exactly when no record matches both fields, otherwise 200 with the username |
| ApiUsuarios.ObtenerRutasUsuario | api/usuarios.py:79-83 | only 200, 404 or 500; 404 exactly for an unknown user; 200 exactly when the first matching record has routes, with those routes; otherwise the KeyError 500 |
| ApiUsuarios.Ultimo | api/usuarios.py:110-114 | the scan keeps the last record with the username |
| ApiUsuarios.ComunesDe | api/usuarios.py:106-120 | 404 exactly when either user is absent; 200 exactly when both are present and both last records have routes, with the intersection of both route sets; otherwise the KeyError 500 |
| ApiUsuarios.ComunesSimetrico | api/usuarios.py:119 | the answer does not depend on the order of the two users |
| ApiUsuarios.RutasComunesHandler | api/usuarios.py:106-120 | the scanning handler answers as `ComunesDe` |
| ApiUsuarios.AmigosDe | api/usuarios.py:152-161 | the requester is never a key; keys are exactly the other users sharing a route; each value is a non-empty subset of the requester's routes |
| ApiUsuarios.AmigosDeExacto | api/usuarios.py:155-161 | with unique usernames each value is exactly the intersection of the two route sets |
| ApiUsuarios.AmigosConRutasComunes | api/usuarios.py:141-163 | 404 exactly for an unknown user, otherwise 200 with that map |
| ApiRutas.Filtradas | api/rutas.py:97-120 | no parameter gives all routes; 400 exactly when some route survives the earlier filters and the mode is unknown; 500 carries the exception |
| ApiRutas.Etapa1Seleccion | api/rutas.py:101-103 | the difficulty stage is the difficulty selection |
| ApiRutas.Etapa2Seleccion | api/rutas.py:105-107 | the distance stage intersects with the distance filter, keeping order |
| ApiRutas.Etapa3Seleccion | api/rutas.py:109-111 | the duration stage intersects with the duration filter, keeping order |
| ApiRutas.Etapa4Seleccion | api/rutas.py:113-118 | the transport stage intersects with the mode filter, keeping order |
| ApiRutas.HastaDuracionSeleccion | api/rutas.py:100-111 | the first three stages select the routes passing all of them |
| ApiRutas.FiltradasSeleccion | api/rutas.py:100-120 | a 200 answer lists exactly the routes passing every given filter, in order |
| ApiRutas.FiltradasFallos | api/rutas.py:100-118 | a 500 comes from a non-text difficulty or mode, or a threshold that is not a number |
| ApiRutas.TransporteSinSupervivientes | api/rutas.py:113-118 | when nothing survives the earlier filters the mode is never checked and the answer is an empty list |
| ApiRutas.SeleccionMonotona | api/rutas.py:100-116 | adding a filter never enlarges the result |
| ApiRutas.SeleccionEnDificultad | api/rutas.py:101-103 | the result is a subsequence of all routes and of the difficulty filter's output |
| ApiRutas.SeleccionEnDistancia | api/rutas.py:105-107 | the result is a subsequence of the distance filter's output |
| ApiRutas.SeleccionEnDuracion | api/rutas.py:109-111 | the result is a subsequence of the duration filter's output |
| ApiRutas.SeleccionEnTransporte | api/rutas.py:113-118 | the result is a subsequence of the mode filter's output |
| ApiRutas.DesempaquetarTres | api/rutas.py:35 | unpacking into three names succeeds exactly for three keys |
| ApiRutas.RespuestaCreadaAsWrittenFalla | api/rutas.py:35-41 | as written, unpacking the returned dictionary always raises, so a created route is answered with 500 |
| ApiRutas.RespuestaCreada | api/rutas.py:39 | the corrected answer is 200 with the three export paths of the created route |
| ApiRutas.CrearManual | api/rutas.py:13-41 | a load failure gives 500; bad credentials give 403 with the file untouched; otherwise 200 exactly when the route is savable and the association succeeds, with the route's files and the route added to the user, else 500 with the wrapped error |
| ApiRutas.Entero | api/rutas.py:67 | `int()` truncates numbers toward zero, gives 1 and 0 for `true` and `false`, gives the value `ParseInt` reads from text, and raises ValueError on other text and TypeError on lists, objects and null |
| ApiRutas.EnteroIdaVuelta | api/rutas.py:67 | a count sent as a number or as its digits reads back as itself |
| ApiRutas.CrearAuto | api/rutas.py:45-70 | 403 before anything is created on bad credentials; a bad count gives 500; otherwise the generator's result, with every saved route as generated: fewer than two addresses, or distinct placed addresses in a connected graph, always give 200, and a 500 carries an error whose cause is in the inputs |
| ApiRutas.DescargarPdf | api/rutas.py:142-143 | the PDF is served from `static/<nombre>.pdf` |
| ApiRutas.DescargarHtml | api/rutas.py:164-165 | the map is served from `static/rutas_<nombre>.html` |
| ApiRutas.DescargaPdfCreada | api/rutas.py:142-143 | the download path is the PDF path a manual route reports |
| MiappDb.NuevoId | miapp.py:47 | a new primary key is positive and above every key in use |
| MiappDb.MismaFila | miapp.py:47-51 | with unique ids and usernames, rows agreeing on either are the same row |
| MiappDb.PorUsername | miapp.py:62 | `filter_by(username).first()` finds a row exactly when one has the username |
| MiappDb.PorId | miapp.py:160 | `query.get(id)` finds a row exactly when one has the id |
| MiappDb.IniciarSesion | miapp.py:61-65 | a returned row has the username and the password verbatim in `password_hash` |
| MiappDb.IniciarSesionExacta | miapp.py:61-65 | with unique usernames, login succeeds iff a row matches both |
| MiappDb.RegistroUnicos | miapp.py:68-89 | a registration accepted because username and email are free keeps them unique |
| MiappDb.ConRuta | miapp.py:123-144 | after `agregar_ruta` the pair is present; the pairs are the old ones plus this one; at most one row per pair |
| MiappDb.ConRutaIdempotente | miapp.py:128-130 | adding an existing pair changes nothing |
| MiappDb.NombresDe | miapp.py:152-153 | a user's route names are exactly those of their rows |
| MiappDb.VecesUnica | miapp.py:128-136 | with unique pairs a (user, route) pair occurs at most once |
| MiappDb.Comunes | miapp.py:152-168 | the shared names are those both users hold, in the order of the requester's rows |
| MiappDb.AmigosDeExactos | miapp.py:147-170 | {} for an unknown user; never the user itself; each other user appears iff they share a route, with name, surname and the shared routes in order |
| MiappDb.AmigosSimetricos | miapp.py:147-170 | v is u's friend iff u is v's |
| MiappDb.Base.RegistrarUsuario | miapp.py:68-89 | False with no row added when the username or the email is taken; otherwise one row with a fresh id |
| MiappDb.Base.AgregarRuta | miapp.py:123-144 | False with nothing changed for an unknown user; otherwise the pair is added once |
| MiappDb.Base.ObtenerAmigos | miapp.py:147-170 | the nested loops build exactly the friends map |
| MiappDb.AmigosPorRuta | miapp.py:157-168 | one pass over the rows of a route adds that route to every other user holding it, creating their entry with name and surname on first sight |
| MiappRutas.PorCampo | miapp.py:204-214 | the difficulty and mode filters keep, in order, the records whose field equals the value ignoring case, each as many times as it occurs; AttributeError on a non-text field |
| MiappRutas.PorCampoDificultad | miapp.py:204-205 | this revision's difficulty filter agrees with `gestor_rutas.py`'s |
| MiappRutas.PrimerFallo | miapp.py:207-211 | `float()` fails on the first record whose field is not numeric |
| MiappRutas.Hasta | miapp.py:207-211 | the numeric filters raise on the first record `float` cannot read, otherwise keep, in order, the records within the limit, each as many times as it occurs |
| MiappRutas.HastaMonotona | miapp.py:207-211 | raising the limit never removes a record |
| MiappRutas.Velocidad | miapp.py:227-228 | speed 15 for bike, 60 for drive and 5 for any other mode |
| MiappRutas.Dificultad | miapp.py:230-235 | "bajo" below 5 km, "medio" below 15 km, "alto" otherwise |
| MiappRutas.Compacto | miapp.py:223 | the default-name timestamp is 14 digits |
| MiappRutas.RutaDesdeDatos | miapp.py:218-248 | the given or default name `Ruta_<timestamp>`; 10 km; duration × speed = 10; difficulty "medio"; the inputs echoed |
| MiappRutas.Registro | miapp.py:237-248 | the saved record carries the keys the filters read |
| MiappRutas.CreadaEnFiltros | miapp.py:226-248 | a created route passes the distance filter iff the limit is ≥ 10, the duration filter iff ≥ 10/speed, and matches difficulty "medio" and its own mode |
| MiappRutas.CrearRutaDesdeDatos | miapp.py:218-254 | the route is returned and its file written under its name |
| MiappRutas.Cuantas | miapp.py:263 | the loop runs min(cantidad, n − 1) times: never more than either bound, exactly one of them when both are non-negative, and not at all for a non-positive count or fewer than two addresses |
| MiappRutas.Tramos | miapp.py:263-275 | route i joins `direcciones[i]` to `direcciones[i+1]` |
| MiappRutas.MensajesAuto | miapp.py:277 | one "Ruta '<nombre>' creada exitosamente" message per route |
| MiappRutas.CrearTramo | miapp.py:264-275 | one iteration creates and writes route i |
| MiappRutas.GenerarRutasDesdeDirecciones | miapp.py:257-279 | fewer than two addresses give the one-element warning; otherwise exactly min(cantidad, n − 1) consecutive routes and messages |
| MiappRutas.NombreAutoSinComilla | miapp.py:267-268 | generated names contain no quote |
| MiappRutas.RecuperarNombre | miapp.py:277 | splitting the message on quotes gives back the name as piece 1 |
| MiappRutas.FaltanSinCreada | miapp.py:259 | the warning does not contain "creada", so it names no route |
| MiappApi.Texto | miapp.py:316 | `datos.get(k, '')` fails exactly on a value that is not text |
| MiappApi.Login | miapp.py:312-347 | 400 for an empty username or password; 401 exactly when login fails; 200 with the profile; 500 for a non-text field |
| MiappApi.LoginRechazo | miapp.py:325-342 | with unique usernames a 401 means no row matches both fields |
| MiappApi.PrimeroVacio | miapp.py:353-359 | the first empty required field is reported, none when all are present |
| MiappApi.LeerAlta | miapp.py:352-369 | a complete request has every required field non-empty |
| MiappApi.Registro | miapp.py:349-383 | 400 naming the missing field; 200 exactly when username and email are free, adding that row; 400 "El usuario ya existe" otherwise |
| MiappApi.ObtenerAmigos | miapp.py:582-601 | 400 without a username, otherwise 200 with the friends map |
| MiappApi.Primera | miapp.py:491-494 | the first row with that user and route |
| MiappApi.Quitar | miapp.py:517 | deleting removes one row when the pair exists |
| MiappApi.QuitarPares | miapp.py:517-518 | deleting keeps pairs unique |
| MiappApi.QuitarExacto | miapp.py:517-518 | after deleting, the pairs are the old ones except the deleted one |
| MiappApi.EliminarRutaUsuario | miapp.py:481-529 | 404 for an unknown user or a missing association, changing nothing; otherwise exactly that row is deleted and its files removed |
| MiappApi.SinUsuario | miapp.py:402-407 | exactly the rows of other users remain |
| MiappApi.SinFila | miapp.py:409 | exactly the other users remain |
| MiappApi.EliminarValido | miapp.py:402-410 | the cascade delete keeps keys unique and every route row pointing to an existing user |
| MiappApi.EliminarUsuario | miapp.py:385-420 | a POST without `accion: eliminar` gives 400; an unknown user gives 404; otherwise the user and their route rows and files are gone |
| MiappApi.BorrarArchivos | miapp.py:403-407 | the route files removed are exactly those of the associated route names; the static files are untouched |
| MiappApi.UnicoPorId | miapp.py:395-409 | after the delete the username is no longer found |
| MiappApi.FiltrarRutas | miapp.py:617-650 | 200 exactly when the filter runs; 400 exactly when it raises ValueError, with its message; any other exception gives 500 |
| MiappApi.UltimoGana | miapp.py:628-635 | only the last filter given decides the result |
| MiappApi.FiltrarPorModo | miapp.py:634-635 | with a mode given, the answer is the routes of that mode, in order, each as many times as it occurs |
| MiappApi.CrearRuta | miapp.py:652-676 | a missing origin or destination gives 500; otherwise the route is written and, for a known username, associated |
| MiappApi.NombreDeMensajeAuto | miapp.py:690-691 | a generated message is recognised and yields its route's name |
| MiappApi.MensajesNombran | miapp.py:688-692 | the generator's messages name the routes it created, in order |
| MiappApi.NombranAsociadas | miapp.py:688-692 | associating the named routes associates every created route |
| MiappApi.AsociarMensajes | miapp.py:688-692 | the pairs afterwards are exactly the old ones plus, for a known user, that user with each route named by a "creada" message before the first unreadable one; an unknown user or the warning adds nothing; the IndexError of the first unreadable message is returned |
| MiappApi.PrimeraIlegible | miapp.py:689-691 | the first message containing "creada" with no quoted name, and every earlier one readable |
| MiappApi.NombradoCreadas | miapp.py:689-692 | when the messages name the created routes, the names read from them are exactly the created routes' names |
| MiappApi.AsociarCreadas | miapp.py:688-692 | when the messages name the created routes, association never fails and the pairs afterwards are exactly the old ones plus, for a known user, that user with each created route |
| MiappApi.CrearRutasAutomaticas | miapp.py:678-703 | a missing address list gives 500; fewer than two addresses write no route file; otherwise 200 with the messages and every created route written, the folder being the old one plus exactly those records; the pairs afterwards are exactly the old ones plus, for a given and known username, that user with each created route; without one nothing changes |
| MigracionDb.Recreadas | migracion_db.py:5-74 | `usuarios`, `rutas` and `amistades` are empty after recreation; `rutas_usuario` keeps its rows |
| MigracionDb.ConUsuario | migracion_db.py:102-118 | the insert raises IntegrityError exactly when the username or email is taken; other tables unchanged |
| MigracionDb.ConUsuarioValida | migracion_db.py:15-28 | the new row comes last with the counter's id, and no earlier row shares its username or email |
| MigracionDb.RutaPorNombre | migracion_db.py:129-130 | the lookup finds a route exactly when one has the name |
| MigracionDb.ConRuta | migracion_db.py:129-153 | an existing name reuses its id; a new one appends a placeholder row with the next id; nothing else changes |
| MigracionDb.ConRutaValida | migracion_db.py:129-153 | route names stay unique, and a second get-or-create returns the same id |
| MigracionDb.ConRutaConserva | migracion_db.py:129-153 | get-or-create keeps every earlier route row and lookup |
| MigracionDb.ConAsignacion | migracion_db.py:156-159 | INSERT OR IGNORE: the pairs are the old ones plus this one, rows only appended |
| MigracionDb.ConAsignacionValida | migracion_db.py:61-71 | no (user, route) pair is stored twice, and repeating the insert changes nothing |
| MigracionDb.ConAmistad | migracion_db.py:182-185 | the friendship pairs are the old ones plus this one, other tables unchanged |
| MigracionDb.ConAmistadValida | migracion_db.py:48-58 | friendship pairs stay unique |
| MigracionDb.AltaDe | migracion_db.py:92-100 | missing fields become '', a missing birth date and a missing or empty registration date become now |
| MigracionDb.TablaDe | migracion_db.py:102-122 | accepted entries become rows with ids 1, 2, … in order |
| MigracionDb.Aceptadas | migracion_db.py:102-167 | the accepted entries keep usernames and emails unique |
| MigracionDb.AceptadasSinChoques | migracion_db.py:164-167 | with no colliding entries every entry is migrated |
| MigracionDb.Indice | migracion_db.py:121-122 | `username_to_id` maps exactly the migrated usernames to their ids |
| MigracionDb.MigradasPaso | migracion_db.py:125-162 | one route step keeps the migrated-routes invariant with the name added to the current user |
| MigracionDb.ParesHacia | migracion_db.py:176-187 | a user's friendship pairs start at them and end at a migrated friend |
| MigracionDb.ParesAmistad | migracion_db.py:172-187 | every friendship pair joins a migrated entry to a migrated friend it lists |
| MigracionDb.ParesEntreMigrados | migracion_db.py:172-187 | both ends of every friendship are ids of migrated rows |
| MigracionDb.BaseDatos.CrearTablas | migracion_db.py:5-74 | the database is recreated as `Recreadas` states |
| MigracionDb.BaseDatos.InsertarUsuario | migracion_db.py:102-122 | the insert returns the new id, or IntegrityError with nothing changed |
| MigracionDb.BaseDatos.ObtenerOCrearRuta | migracion_db.py:129-153 | the select-then-insert returns the route's id as `ConRuta` states |
| MigracionDb.BaseDatos.Asignar | migracion_db.py:156-159 | the association insert-or-ignore |
| MigracionDb.BaseDatos.Amistar | migracion_db.py:182-185 | the friendship insert-or-ignore |
| MigracionDb.MigrarRutas | migracion_db.py:125-162 | after a user's route loop every listed route exists once and is associated with the user |
| MigracionDb.MigrarUsuario | migracion_db.py:89-169 | a colliding user is skipped with none of their routes; otherwise their row, id and routes are added |
| MigracionDb.MigrarUsuarios | migracion_db.py:89-169 | the user loop leaves exactly the accepted users, their index and their routes |
| MigracionDb.MigrarAmistades | migracion_db.py:172-187 | the friendships are exactly the pairs between migrated users; nothing else changes |
| MigracionDb.AmistarTodos | migracion_db.py:178-187 | one user's friendship loop adds exactly the pairs towards migrated friends; nothing else changes |
| MigracionDb.MigrarDatos | migracion_db.py:76-194 | a missing file changes nothing; otherwise users, routes, associations and friendships are as the functions above describe |
| MigracionDb.DevueltoAsWritten | migracion_db.py:76-194 | the function as written returns None on every path |
| MigracionDb.InformadaAsWritten | ejecutar_migracion.py:48-52 | so the caller reports failure whatever happened |
| MigracionDb.DevueltoCorregido | migracion_db.py:189-194 | the corrected function returns whether the migration completed |
| MigracionDb.InformadaCorregida | ejecutar_migracion.py:48-52 | then the caller reports success exactly when the migration completed |
| UsuarioDb.AltaRegistro | usuario_db.py:31-36 | the insert carries the given fields and the current time as ISO text |
| UsuarioDb.RegistrarUsuario | usuario_db.py:25-42 | False with nothing inserted exactly when username or email is taken; otherwise the row is inserted |
| UsuarioDb.PerfilDe | usuario_db.py:6-16 | the user object keeps the row's fields; an empty registration date becomes now |
| UsuarioDb.IniciarSesion | usuario_db.py:45-72 | a user exactly when some row matches both fields, built from the first such row |
| UsuarioDb.IniciarSesionUnica | usuario_db.py:50-69 | with unique usernames login succeeds iff that user's password matches |
| UsuarioDb.IdDe | usuario_db.py:138-141 | a username lookup finds an id exactly when the user exists |
| UsuarioDb.IdDeUnico | usuario_db.py:138-141 | with unique usernames it finds that user's id |
| UsuarioDb.Unidas | usuario_db.py:80-86 | the join yields exactly the names of routes associated with a user of that name |
| UsuarioDb.ObtenerRutas | usuario_db.py:75-93 | an unknown user gets [] |
| UsuarioDb.ObtenerRutasExacta | usuario_db.py:80-93 | a name is listed iff the user holds a route of that name |
| UsuarioDb.Agregada | usuario_db.py:132-168 | False with nothing changed for an unknown user; users and friendships never change |
| UsuarioDb.AgregadaValida | usuario_db.py:144-161 | keys stay unique, and afterwards the user holds the route |
| UsuarioDb.AgregadaIdempotente | usuario_db.py:158-161 | a second call changes nothing |
| UsuarioDb.AgregadaVisible | usuario_db.py:132-168 | after adding, `obtener_rutas` lists the route |
| UsuarioDb.AgregarRuta | usuario_db.py:132-168 | the select/insert sequence yields the state and answer of `Agregada` |
| UsuarioDb.AmigosDe | usuario_db.py:108-118 | the users the requester links to in `amistades` |
| UsuarioDb.Comunes | usuario_db.py:108-118 | the names of routes both users hold |
| UsuarioDb.ComunesExacta | usuario_db.py:108-118 | a name is common iff both users hold it |
| UsuarioDb.Partir | usuario_db.py:122 | no concatenated names gives [] |
| UsuarioDb.PartirJoin | usuario_db.py:120-123 | splitting the concatenation on commas gives back the names when they hold no comma |
| UsuarioDb.ObtenerAmigos | usuario_db.py:96-129 | {} for an unknown user; otherwise the keys are exactly the users linked from the requester |
| UsuarioDb.ObtenerRutasDeFila | usuario_db.py:80-93 | for an existing row, listed iff associated with that row |
| UsuarioDb.ObtenerAmigosComunes | usuario_db.py:96-129 | each friend's list holds exactly the routes both `obtener_rutas` lists share |
| UsuarioDb.MigradasVisibles | usuario_db.py:75-93 | after the migration every route listed for a migrated user is returned by `obtener_rutas` |

## Left out

- File-system I/O is not modelled: reading and writing route folders and `usuarios.json`, `os.makedirs`, `os.remove`, and `Ruta.listar_rutas` and `cargar_rutas_desde_carpeta`. Each store is a value passed in and out; route folders are maps and `usuarios.json` is an optional list of records.
- Exporting is not modelled. The GPX, HTML map and PDF exporters in `utils.py` are rendering; only the file names they report are modelled.
- The Tkinter GUI (`interfaz.py`, `interfaz2.py`, `main.py`), the weather client (`servicio_clima.py`, `consultar_clima`) and the print-only test scripts are outside the core.
- Geocoding, the street graph, nearest nodes and shortest paths are oracle functions. `time.sleep` is left out.
- `float()` of arbitrary text and `%.2f` formatting are oracle functions. Distances and durations are exact `real`s.
- Clocks and randomness are parameters. `random.sample` and `random.choice` are nondeterministic choices that the contracts constrain. `random.uniform` is only constrained to its range.
- Flask request parsing, CORS, `send_from_directory` and the SQLAlchemy session are not modelled. Handlers take the request's fields, and tables are sequences of rows.
- Commit failures and rollbacks in `miapp.py` (`registrar_usuario`, `agregar_ruta`, the delete handlers) are not modelled: commits always succeed.
- Connection errors and the catch-all `except Exception` paths of `usuario_db.py` and `migracion_db.py` are not modelled. The only errors modelled are the UNIQUE violations and the missing input file.
- Columns filled by CURRENT_TIMESTAMP defaults are not modelled. `fecha_registro` is the clock's ISO text, read once per call.
- Non-text JSON values in `usuarios.json` for the migration, entries that are not objects, and NOT NULL failures on null route names are not modelled. Entries are typed records whose fields may be absent.
- Left out of `miapp.py`: the remaining endpoints and helpers, which are file loading, listing or setup rather than bookkeeping. These are `Usuario.obtener_rutas` (miapp.py:92-120), `obtener_rutas_usuario` (miapp.py:531-580), `editar_usuario`, `buscar_usuarios`, `obtener_rutas` (miapp.py:603-615), `test_db`, `inicializar_db`, the static-file routes and `consultar_clima`.
- `Ruta.to_dict` calls methods that do not exist (ruta.py:277-283) and is not modelled.
- MigracionDb.MigrarDatos: association rows that survive `crear_tablas` keep their old route ids. The model carries them along unchanged, but no lemma says what they refer to once `rutas` is rebuilt.
- UsuarioDb.ObtenerRutas: the model lists the names in the order of the association rows (`rutas_usuario`). SQLite does not fix the order of a join, so the contract states membership, not order.
- UsuarioDb.ObtenerAmigos: its own contract states the key set. The values are stated by `ObtenerAmigosComunes`, only for route names that are non-empty and contain no comma, because `split(',')` breaks such names apart. The order of `GROUP_CONCAT` is taken to be route-table order.
- MiappDb.IniciarSesion: its own contract states only that a returned row matches. Completeness holds for unique usernames (`IniciarSesionExacta`), which the UNIQUE column guarantees.
- Ruta.TramosKm: its own contract bounds only the count of entries. Their values and sum are stated by `TramosSuman` for the case where every leg has a path.
- RutaAuto.RutaAuto.GenerarRutasDesdeDirecciones: on an error it states that fewer than `cantidad` routes were saved and what in the inputs caused the error, not which iteration failed. Since the addresses are drawn at random, a bad address or pair of nodes does not force an error, so the contract gives a sufficient condition for success rather than an exact one.
- Ruta.PuntosIntermedios: its own contract fixes the list only when every address is placed. The exact selection for any input is stated by `PuntosColocados`.
- Ruta.ComoRegistro: `ubicacion` and `puntos_intermedios` are kept as opaque JSON values, so the stored list of intermediate address names is not stated.
- GestorRutas.PorDificultad, GestorRutas.PorTransporte, MiappRutas.PorCampo, MiappApi.Login and MiappApi.Registro: `str.lower()` folds only ASCII letters and `str.strip()` knows only the whitespace below U+0100. Python's Unicode case mapping and whitespace set are not modelled, so "DIFÍCIL" does not match a stored "difícil" here although it does in Python.
- Text.ParseInt, ApiRutas.Entero: `int()` of text is modelled for optional surrounding whitespace, an optional sign and ASCII digits only. Python also accepts single underscores between digits (`"1_000"`) and non-ASCII decimal digits (such as Arabic-Indic or full-width digits); the model turns those texts away with ValueError. This affects the `cantidad` of `crear_auto` and the duration texts read by `gestor_rutas.py`.
- Exception texts are abstracted. `ErrorText` gives one fixed text per exception kind, so the 500 bodies do not reproduce Python's messages exactly. Examples are "int() argument must be ... not 'NoneType'", and "'bool' object has no attribute 'lower'" or "... 'strip'". `ValueError` texts for `int()`, `float()`, `fromisoformat` and the unknown mode are modelled, but the unknown mode's message omits the " Modos disponibles: ..." suffix of gestor_rutas.py:143, which lists a Python set in hash order.
- Loading `usuarios.json` assumes well-formed records. A record without `username` raises KeyError at usuario.py:164, and extra or missing keys make `Usuario(**usuario_data)` raise TypeError at usuario.py:165. Neither failure is modelled, because `Registro` is typed with exactly the stored fields.
- Fechas.FromIso accepts only the naive forms "YYYY-MM-DD[?HH[:MM[:SS[.fff[fff]]]]]". The other forms Python's `fromisoformat` accepts, such as timezone offsets, "Z" and week dates, read as errors here.
- The clock is read once per call. `MiappRutas.RutaDesdeDatos` uses the same `ahora` for the default name and the creation date. `MiappRutas.GenerarRutasDesdeDirecciones` and `MigracionDb.MigrarDatos` use one `ahora` for every iteration or entry. The source calls `datetime.now()` each time, so its timestamps may differ by a tick.
- ApiRutas.CrearManual and RutaManual.CrearRutaDesdeDatos use the corrected behaviour of the first three findings below. The as-written behaviour is stated by the as-written members.

## Findings

| source | as written | input that shows it | evidently intended | confidence | as-written member | corrected member |
|---|---|---|---|---|---|---|
| ruta_manual.py:78-86 | the association step calls `Usuario.cargar_usuarios()`, but `Usuario` is never imported (ruta_manual.py:1-5), so it raises NameError, which is re-raised as "Error al crear la ruta: ..." | any call with a non-empty `username` | append the route to that user's `rutas` and save | high (not executed) | RutaManual.AsociarAsWrittenFalla | RutaManual.AsociadoCarga |
| api/rutas.py:35-38 | the six-key dictionary returned by `crear_ruta_desde_datos` is unpacked into `pdf, gpx, html`, which raises ValueError, so every created route is answered with 500 | any valid login with any route | answer with the three export paths from `archivos` | high (not executed) | ApiRutas.RespuestaCreadaAsWrittenFalla | ApiRutas.RespuestaCreada |
| api/rutas.py:37 | the logged-in user object is passed where a username is expected, so (with the import fixed) no record matches and the route is never associated | any valid login | pass `usuario.username` | high (not executed) | RutaManual.AsociarObjeto | ApiRutas.CrearManual |
| migracion_db.py:76-194 | `migrar_datos` has no `return`, so it returns None and `if migrar_datos():` (ejecutar_migracion.py:48) always reports failure and exits with status 1 | any run, including one that migrates everything | return True after the commit and False on failure | high (not executed) | MigracionDb.InformadaAsWritten | MigracionDb.InformadaCorregida |
