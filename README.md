# INFOSER service requests — a Dafny model

INFOSER is a field-service web application. Clients register, log in and file
service requests (*solicitudes*): a title, a description, an address, a comuna
and a service type. An administrator searches the requests, changes their state
(`pendiente`, `en_proceso`, `completada`, `cancelada`) and assigns technicians. A
technician sees the requests assigned to them and moves them between states. An
analytics page counts requests by state and by day. A forecast page sends a
history of daily counts to the back end, which projects demand per day and per
(comuna, service type) pair.

The model covers:

- the Express back end (`backend/src/server.js`): login, client registration,
  request creation, listing, update and route matching, over a `Database` class
  whose tables are sequences;
- the in-process forecast (`backend/src/services/ml.js`): the calendar
  arithmetic, the aggregation of the history, and the daily and per-pair
  forecasts;
- the pages of the current front end (`frontend/src/...`): login, registration,
  the route guard, home, the admin request list, analytics, the forecast page
  and the technician panel;
- the earlier front end that still ships under `src/` (login, registration,
  home, admin list and technician panel), which works on `localStorage` only.

JavaScript values are the datatype `Json` (`Null | Bool | Num(int) | Str`).
Objects are `map<string, Json>`, with an absent key standing for `undefined`.
`localStorage` is a map from keys to a text, an object or a list of objects.
Truthiness, `||`, `??`, `Number(...)` and `String(...)` are written out in
`JsValue`. Each page with state is a `class`: its handlers are methods that
update the fields the React state hooks hold. The pure parts (filters,
payloads, counters) are functions. The sorts are specified by a stable
insertion sort. An in-place array sort is proved to compute that same result.

## Where the code and the design disagree

The design describes a request lifecycle engine, which the code does not have:

- transition rules enforced by the server;
- reopening of completed requests;
- a state-history table;
- timestamps set per state;
- an `in_process` alias.

The model follows the code. In particular:

- `PUT /api/solicitudes/:id` writes whatever state and technician the body
  names, with no check at all (`Server.UpdateHasNoTransitionCheck`).
- The only transition rules anywhere are the buttons of the earlier technician
  panel (`LegacyTecnicoPanel.Transitions`).

The model also makes several behaviours of the code explicit:

- The current login page never handles the back end's `administrador` role.
- Assigning a `null` technician sends technician `0`.
- Clearing the technician select sends no state, so the server stores `NULL`.
- The "send to technician" call uses a verb that neither the API helper nor the
  server has.
- The technician panel loads from a path the server does not route.
- KPI counters delivered as strings are concatenated, not added.
- A `|` inside a comuna makes two forecast pairs share one key.

## Model

| member | source | states |
|---|---|---|
| `Server.NormEmail` | backend/src/server.js:33 | a string email becomes its middle, lower-cased, with only white space before and after it in the input; the result is trimmed and lower-case; a non-string becomes `""` |
| `Server.NormEmailOfPadded` | backend/src/server.js:33 | an address typed with surrounding white space and capitals is stored as the lower-cased address alone |
| `Server.NormEmailIdempotent` | backend/src/server.js:33 | normalising an already normalised email changes nothing |
| `Server.Database.Login` | backend/src/server.js:57-140 | 400 exactly when the normalised email is empty or the password is not a non-empty string; otherwise the first active internal user with that email decides (password check, 401 on mismatch, without falling through to clients), then the first active client, else 401; a token always carries the normalised email, and a client token means no active internal user had that email |
| `Server.ClienteIdFor` | backend/src/server.js:249-250 | a client caller always gets its own id; any other caller gets the body's `cliente_id` when truthy, else `null` |
| `Server.NewSolicitudRow` | backend/src/server.js:253-271 | the inserted row has the new id, the given `cliente_id`, each of the nine body columns (`undefined` stored as `NULL`) and the table defaults elsewhere |
| `Server.Database.Register` | backend/src/server.js:170-224 | a truthy non-string name or phone throws; a missing field is 400; an email already present among clients (active or not), then among internal users, is 400 with its own message; otherwise exactly one client row is appended with the next id and the reply echoes it; on every failure the table is unchanged |
| `Server.Database.CreateSolicitud` | backend/src/server.js:231-277 | missing any of the six required fields is 400 with nothing inserted; otherwise exactly one row (`NewSolicitudRow`) is appended and returned |
| `Server.PgInt4` | backend/src/server.js:289-292 | a path id that PostgreSQL reads as `integer` lies in the 32-bit range; other texts are a database error |
| `Server.PgInt4OfDecimal` | backend/src/server.js:284-292 | an id written in decimal is read back as itself |
| `Server.Database.ListByCliente` | backend/src/server.js:280-298 | 403 exactly when a client asks for another id; an unreadable id is 500; otherwise the reply is a permutation of the rows owned by that id, sorted newest first |
| `Server.UpdatedRow` | backend/src/server.js:338-344 | the update sets the state and technician from the body (absent ones as `NULL`) and the update time, and leaves every other column alone |
| `Server.UpdateHasNoTransitionCheck` | backend/src/server.js:333-344 | any requested state is stored whatever the current one is |
| `Server.UpdateWithoutEstadoClearsIt` | backend/src/server.js:335-343 | a body without `estado_actual` stores `NULL` as the state |
| `Server.Database.UpdateSolicitud` | backend/src/server.js:333-354 | a caller whose role is neither `administrador` nor `tecnico` is refused by `requireRole` with the table unchanged; otherwise every row with the id is updated and nothing else changes, no such row is 404, and an unreadable id is 500 with the table unchanged |
| `Server.RouteOf` | backend/src/server.js:17-361 | exactly the `OPTIONS` requests get the `cors()` preflight reply; `HEAD` is served by the GET handlers; GET, HEAD, POST and PUT reach a handler, every other verb the 404 reply; literal segments ignore letter case and one trailing slash is accepted |
| `Server.HeadIsServedAsGet` | backend/src/server.js:38-333 | a `HEAD` request reaches the handler a `GET` of the same path reaches |
| `Server.EnviarATecnicoNotRouted` | backend/src/server.js:333-361 | `PATCH /api/solicitudes/:id/enviar-a-tecnico` reaches no handler |
| `Server.SolicitudesSubpathNotRouted` | backend/src/server.js:280-361 | `GET /api/solicitudes/<x>` for a single non-empty segment `x`, such as `mias`, reaches no handler |
| `Server.UpdatePathRouted` | backend/src/server.js:333 | `PUT /api/solicitudes/<id>`, with `api` and `solicitudes` in any letter case and with or without a trailing slash, reaches the update handler with the id segment (before Express percent-decodes it) |
| `Forecast.NextDay` | backend/src/services/ml.js:11-15 | the next day is a valid date strictly after the given one, rolling over months and years |
| `Forecast.AddDays` | backend/src/services/ml.js:11-15 | adding days gives a valid date |
| `Forecast.AddDaysIncreasing` | backend/src/services/ml.js:11-15 | a larger offset gives a strictly later date |
| `Forecast.FormatDateRoundTrip` | backend/src/services/ml.js:17-22 | for four-digit years the text is ten characters long and reads back as the same date |
| `Forecast.FormatDateInjective` | backend/src/services/ml.js:17-22 | two different dates never format the same |
| `Forecast.ClampHorizon` | backend/src/services/ml.js:27 | the horizon is always in 1..30: the number itself when in range, the nearer bound otherwise, and 7 when it is missing, not a number or zero |
| `Forecast.AggregateHistory` | backend/src/services/ml.js:49-64 | the loop computes `Aggregate` of the history |
| `Forecast.StepThrows` | backend/src/services/ml.js:52-64 | one turn of the loop throws exactly when an earlier turn did or this item throws |
| `Forecast.AggregateThrows` | backend/src/services/ml.js:52-64 | the aggregation throws exactly when some item does (a truthy non-string comuna or type) |
| `Forecast.AggregateSums` | backend/src/services/ml.js:52-64 | both the by-date and the by-pair totals add up to the sum of the counts of the items kept |
| `Forecast.AggregateDistinct` | backend/src/services/ml.js:49-64 | each date and each pair key occurs once in its map |
| `Forecast.AggregateIgnoresBadDates` | backend/src/services/ml.js:53-54 | items whose date does not parse do not affect either map |
| `Forecast.AggregateIgnoresSkipped` | backend/src/services/ml.js:53-54 | dropping skipped items first gives the same maps |
| `Forecast.ComunaCaseIgnored` | backend/src/services/ml.js:57-62 | comunas that differ only in letter case are read the same |
| `Forecast.SplitPairRoundTrip` | backend/src/services/ml.js:62-96 | a pair key splits back into its comuna and type when neither has a `\|` |
| `Forecast.PairKeyCollision` | backend/src/services/ml.js:62-96 | a `\|` in the comuna makes two different pairs share one key, which splits into the wrong pair |
| `Forecast.PairList` | backend/src/services/ml.js:95-99 | one entry per pair key, with its weight as its share of the pair total |
| `Forecast.Daily` | backend/src/services/ml.js:74-85 | one entry per day of the horizon, for the days after today, with the average scaled by the day's factor |
| `Forecast.DailyForecast` | backend/src/services/ml.js:76-85 | the loop computes `Daily` |
| `Forecast.ZeroDaily` | backend/src/services/ml.js:29-44 | with no history every day of the horizon is forecast as 0 |
| `Forecast.PairForecastLoop` | backend/src/services/ml.js:101-111 | the nested loops compute one entry per day and pair, day-major |
| `Forecast.PairsForShape` | backend/src/services/ml.js:101-111 | the pair forecast has days × pairs entries, entry `d·P + j` being day `d` and pair `j` |
| `Forecast.DayPairsSplitTotal` | backend/src/services/ml.js:94-111 | a day's per-pair counts add up to that day's total |
| `Forecast.ForecastML` | backend/src/services/ml.js:25-118 | an empty or non-array history gives the flat forecast and no pairs; otherwise the aggregation (or its throw), the daily forecast from the average per date, and pairs only when the pair total is positive |
| `Forecast.DailyDates` | backend/src/services/ml.js:76-83 | the forecast days are pairwise different and each is written as a ten-character date |
| `Metricas.Filtradas` | frontend/src/pages/adminMetricas.js:85-89 | the kept rows are an ordered sublist holding every occurrence of a row matching the lower-cased comuna selection and the service selection, and no other row; `todas`/`todos` keep everything |
| `Metricas.ComunaSelectionIgnoresCase` | frontend/src/pages/adminMetricas.js:86 | comuna selections that differ only in case keep the same rows |
| `Metricas.UpperCaseComunaNeverMatches` | frontend/src/pages/adminMetricas.js:86-88 | a row whose comuna has an upper-case letter is never kept by a comuna selection |
| `Metricas.CountByKey` | frontend/src/pages/adminMetricas.js:92-99 | the counting loop keeps exactly the initial counters; `total` counts every row (and again the rows whose state is `total`); every other counter counts the rows in its state |
| `Metricas.KpisFiltrados` | frontend/src/pages/adminMetricas.js:92-99 | the seven counters as above, over the filtered rows |
| `Metricas.NamedCountsWithinTotal` | frontend/src/pages/adminMetricas.js:93-97 | the six state counters together never exceed the number of rows |
| `Metricas.CompletadaCountsOnlyTotal` | frontend/src/pages/adminMetricas.js:93-96 | a `completada` row moves no named counter: there is no counter of that name |
| `Metricas.PorDiaFiltrado` | frontend/src/pages/adminMetricas.js:102-111 | the grouping loop and sort compute `PorDia` |
| `Metricas.GroupByFecha` | frontend/src/pages/adminMetricas.js:102-109 | the grouping loop builds the map `Grouped` specifies: one entry per fecha in first-seen order, bumped once per row |
| `Metricas.GroupedKeys` | frontend/src/pages/adminMetricas.js:103-109 | each day entry is stored under its own date, the dates are distinct and exactly those of the rows, and completed ≤ total per day |
| `Metricas.PorDiaAscending` | frontend/src/pages/adminMetricas.js:110 | the series is strictly ascending by date |
| `Metricas.PorDiaCoversFechas` | frontend/src/pages/adminMetricas.js:102-110 | a date appears in the series exactly when some filtered row has it |
| `Metricas.PorDiaTotals` | frontend/src/pages/adminMetricas.js:102-110 | the day totals add up to the number of filtered rows, and each day's completed count is between 0 and its total |
| `Metricas.OrZero` | frontend/src/pages/adminMetricas.js:59-62 | a truthy value is kept, anything else becomes 0 |
| `Metricas.KpisFromDashboard` | frontend/src/pages/adminMetricas.js:56-63 | each card shows its own dashboard field (`total_solicitudes`, `completadas`, `pendientes`, `en_progreso`) when that field is truthy and 0 otherwise; a missing dashboard gives four zeros |
| `Metricas.JsAdd` | frontend/src/pages/adminMetricas.js:115 | `+` adds two numbers and concatenates when either side is a string |
| `Metricas.AbiertasIsSum` | frontend/src/pages/adminMetricas.js:115 | with numeric counters the open count is pending plus in progress |
| `Metricas.AbiertasOfStrings` | frontend/src/pages/adminMetricas.js:115 | counters `"3"` and `"2"` show as `"32"` |
| `Metricas.ProgressWidth` | frontend/src/pages/adminMetricas.js:437-445 | 100, 70 and 50 exactly for `completada`, `en_proceso` and `asignada`, and 30 for anything else |
| `TecnicoPanel.Rank` | frontend/src/pages/tecnicoPanel.js:86-88 | with the ranks of `ESTADO_RANK`, the rank is 1 exactly for `en_proceso`, 2 exactly for `completada`, else 0, with a missing state read as `pendiente` |
| `TecnicoPanel.FechaClave` | frontend/src/pages/tecnicoPanel.js:71-75 | the key is the update time when set, else the request time, else 0 |
| `TecnicoPanel.LeIsPreorder` | frontend/src/pages/tecnicoPanel.js:82-92 | the comparator is a total preorder for every key and direction |
| `TecnicoPanel.AscendingByValue` | frontend/src/pages/tecnicoPanel.js:91 | `asc` orders by increasing key |
| `TecnicoPanel.DescendingReverses` | frontend/src/pages/tecnicoPanel.js:91 | any other direction is the reverse of `asc` |
| `TecnicoPanel.Visible` | frontend/src/pages/tecnicoPanel.js:78-80 | `todas` keeps the list; otherwise an ordered sublist holding every occurrence of a row whose state (missing read as `pendiente`) equals the filter, and no other row |
| `TecnicoPanel.SolicitudesVista` | frontend/src/pages/tecnicoPanel.js:77-95 | the view is a sorted permutation of the visible rows, namely their stable sort |
| `TecnicoPanel.VistaIsStable` | frontend/src/pages/tecnicoPanel.js:82-92 | rows that compare equal keep their list order |
| `TecnicoPanel.UnknownSortKeyKeepsOrder` | frontend/src/pages/tecnicoPanel.js:83-90 | a sort key other than `fecha` or `estado` leaves the visible rows in list order |
| `TecnicoPanel.EstadoPayload` | frontend/src/pages/tecnicoPanel.js:54-57 | the body carries the new state and the row's technician, else the user's id, else `null` |
| `TecnicoPanel.Counts` | frontend/src/pages/tecnicoPanel.js:106-108 | assigned is the list length; in progress and completed count their rows and together never exceed it |
| `TecnicoPanel.PanelUser` | frontend/src/pages/tecnicoPanel.js:24-31 | the panel keeps the stored user exactly when its role is `tecnico` |
| `TecnicoPanel.GuardedPanelHasUser` | frontend/src/pages/tecnicoPanel.js:24-31 | a visitor the route guard admits to the panel is also accepted by the panel |
| `TecnicoPanel.Logout` | frontend/src/pages/tecnicoPanel.js:97-102 | exactly the three session keys are removed |
| `TecnicoPanel.LogoutClosesPanel` | frontend/src/pages/tecnicoPanel.js:97-102 | after logout neither the guard nor the panel admits anyone |
| `TecnicoPanel.Panel.CargarAsignadas` | frontend/src/pages/tecnicoPanel.js:33-44 | one GET of `/api/solicitudes/mias`; a reply replaces the list (`[]` when absent); an error keeps it and shows its message or the default |
| `TecnicoPanel.Panel.ActualizarEstado` | frontend/src/pages/tecnicoPanel.js:50-66 | an unchanged state sends nothing; otherwise one PUT with `EstadoPayload`, the reply merged by id, and the saving flag cleared |
| `Api.Merged` | frontend/src/pages/tecnicoPanel.js:58-60 | only rows with the id change: their fields are overridden by the reply's, and the length is kept |
| `Api.MergedIdempotent` | frontend/src/pages/adminSolicitudes.js:75 | merging the same reply twice changes nothing more, for any reply whose `id`, if it has one, is the merged id (as the update route's `RETURNING *` row does) |
| `AdminSolicitudes.TruthyTextsHas` | frontend/src/pages/adminSolicitudes.js:53-56 | every field with a truthy value contributes its text to the search |
| `AdminSolicitudes.TruthyTextsFrom` | frontend/src/pages/adminSolicitudes.js:53-56 | every text in the search comes from a field with a truthy value |
| `AdminSolicitudes.Query` | frontend/src/pages/adminSolicitudes.js:50 | the query is empty exactly when the filter is blank |
| `AdminSolicitudes.SolicitudesFiltradas` | frontend/src/pages/adminSolicitudes.js:49-58 | a blank filter shows the whole list; otherwise an ordered sublist holding every occurrence of a row whose joined lower-cased text contains the query, and no other row |
| `AdminSolicitudes.FieldMatchIsFound` | frontend/src/pages/adminSolicitudes.js:52-56 | a row is found when one searched field contains the query |
| `AdminSolicitudes.SearchSpansFields` | frontend/src/pages/adminSolicitudes.js:56 | a query can match across two fields that neither contains alone |
| `AdminSolicitudes.TecnicoIdBody` | frontend/src/pages/adminSolicitudes.js:68-70 | the technician is always sent as `null` or a number; `null` exactly for `''`, `undefined` and text `Number` cannot read; a number only as `Number` reads the value |
| `AdminSolicitudes.SelectedTecnicoIsSentAsNumber` | frontend/src/pages/adminSolicitudes.js:68-70 | a technician id selected as its decimal text is sent as that number |
| `AdminSolicitudes.NullTecnicoIsSentAsZero` | frontend/src/pages/adminSolicitudes.js:68-70 | a `null` technician is sent as 0 |
| `AdminSolicitudes.UpdateBody` | frontend/src/pages/adminSolicitudes.js:66-71 | the body is the payload with only `tecnico_id` normalised |
| `AdminSolicitudes.CambioEstadoPayload` | frontend/src/pages/adminSolicitudes.js:86-89 | the payload carries the new state, `null` as technician exactly when the row's is nullish, and the row's own technician unchanged otherwise |
| `AdminSolicitudes.UnassignedStateChangeSendsZero` | frontend/src/pages/adminSolicitudes.js:84-90 | a state change of an unassigned request sends it to technician 0 |
| `AdminSolicitudes.ClearingTecnicoSendsZeroWithoutEstado` | frontend/src/pages/adminSolicitudes.js:110 | clearing the technician sends `{tecnico_id: 0}` with no state |
| `AdminSolicitudes.Admin.ActualizarSolicitud` | frontend/src/pages/adminSolicitudes.js:60-82 | an invalid id sends nothing; otherwise one PUT with `UpdateBody`, the reply merged by id; the saving flag ends cleared |
| `AdminSolicitudes.Admin.HandleCambioEstado` | frontend/src/pages/adminSolicitudes.js:84-90 | an unchanged state does nothing; otherwise `ActualizarSolicitud` with `CambioEstadoPayload` |
| `AdminSolicitudes.Admin.EnviarATecnico` | frontend/src/pages/adminSolicitudes.js:93-106 | `api.patch` does not exist, so the call throws: nothing is sent, the list is unchanged and the saving flag ends cleared |
| `AdminSolicitudes.Admin.HandleAsignarTecnico` | frontend/src/pages/adminSolicitudes.js:108-112 | an empty selection updates with `tecnico_id: null`; any other selection goes through `EnviarATecnico` and sends nothing |
| `ModeloPredictivo.Validation` | frontend/src/pages/adminModeloPredictivo.js:67-84 | valid exactly when the horizon is an integer in 1..30, the table is not empty and every row passes every check; the message is empty exactly when valid; the horizon message comes first, then the empty-table message, then the message of the first failing row's first failing check |
| `ModeloPredictivo.RowsVerdict` | frontend/src/pages/adminModeloPredictivo.js:76-81 | ok exactly when every row passes all four checks, and then the message is empty; otherwise the message names the first failing row (numbered from 1) and its first failing check |
| `ModeloPredictivo.Validate` | frontend/src/pages/adminModeloPredictivo.js:67-84 | the method computes `Validation` |
| `ModeloPredictivo.CheckRows` | frontend/src/pages/adminModeloPredictivo.js:76-81 | the row loop, leaving at the first failing check, computes `RowsVerdict` |
| `ModeloPredictivo.PredictPayload` | frontend/src/pages/adminModeloPredictivo.js:96-104 | the horizon as a number in 1..30, and one history item per row in row order |
| `ModeloPredictivo.HistoryItem` | frontend/src/pages/adminModeloPredictivo.js:98-103 | each item has exactly the date, comuna, type and count keys |
| `ModeloPredictivo.HistoryItemFields` | frontend/src/pages/adminModeloPredictivo.js:98-103 | the item carries the date as typed, comuna and type trimmed and lower-cased, and the count as a number |
| `ModeloPredictivo.PayloadReadsBack` | frontend/src/pages/adminModeloPredictivo.js:96-104 | the forecast service reads each item's comuna, type and count back as the page sent them |
| `ModeloPredictivo.ValidRowSendsTrimmed` | frontend/src/pages/adminModeloPredictivo.js:79-101 | a valid row's comuna and type are sent non-empty and trimmed |
| `ModeloPredictivo.UpdatedRows` | frontend/src/pages/adminModeloPredictivo.js:58-64 | only the named field of the rows with the id changes; the count field stores `Number(value) \|\| 0` |
| `ModeloPredictivo.CountFieldReadsNumber` | frontend/src/pages/adminModeloPredictivo.js:61 | a decimal count is stored as its number and an empty one as 0 |
| `ModeloPredictivo.RemovedRows` | frontend/src/pages/adminModeloPredictivo.js:46-48 | exactly the rows with the id go; the others stay in order |
| `ModeloPredictivo.Page.AddRow` | frontend/src/pages/adminModeloPredictivo.js:39-44 | one blank row dated today is appended |
| `ModeloPredictivo.Page.RemoveRow` | frontend/src/pages/adminModeloPredictivo.js:46-48 | the rows become `RemovedRows` |
| `ModeloPredictivo.Page.ClearAll` | frontend/src/pages/adminModeloPredictivo.js:50-56 | one blank row, no error, not yet attempted |
| `ModeloPredictivo.Page.UpdateRow` | frontend/src/pages/adminModeloPredictivo.js:58-64 | the rows become `UpdatedRows` |
| `ModeloPredictivo.Page.Predict` | frontend/src/pages/adminModeloPredictivo.js:86-104 | an invalid table shows its message and sends nothing; a valid one sends `PredictPayload` |
| `Routes.RequireAuth` | frontend/src/App.js:17-31 | login exactly when user or token is missing; render exactly when a listed role (or no list) matches; the panel redirect only for a technician |
| `Routes.AdminPagesNeedAdminRole` | frontend/src/App.js:43-90 | an administrator page is shown only to a signed-in `administrador` or `admin` |
| `Routes.PanelNeedsTecnico` | frontend/src/App.js:93-100 | the technician panel is shown exactly to a signed-in `tecnico` |
| `Routes.TecnicoSentToPanel` | frontend/src/App.js:23-26 | a technician opening an administrator page, in any letter case and with any trailing slashes, lands on the panel |
| `Routes.OneRedirectSettles` | frontend/src/App.js:17-103 | every redirect lands on a page that is shown |
| `Routes.UnknownPathsGoHome` | frontend/src/App.js:103 | a path that matches no route of the table, even ignoring letter case and trailing slashes, redirects home |
| `Routes.LoginPathMatches` | frontend/src/App.js:39 | the login route matches its path in any letter case and with any trailing slashes |
| `LoginClientes.BackendUser` | frontend/src/components/auth/loginClientes.js:25-41 | the back end authenticates exactly when the body has a truthy `success` and a user, and that user is dispatched |
| `LoginClientes.LocalUser` | frontend/src/components/auth/loginClientes.js:62-93 | the two demo emails log in whatever the password; any other email logs in exactly when a stored client has that email and password, and then as the first such record with `rol` set to `cliente` over its own fields |
| `LoginClientes.AfterLogin` | frontend/src/components/auth/loginClientes.js:43-59 | `admin`, `tecnico` and `cliente` each write their flag and user under their own keys; nothing else changes |
| `LoginClientes.OtherRolesWriteNothing` | frontend/src/components/auth/loginClientes.js:43-59 | any other role writes nothing and navigates nowhere |
| `LoginClientes.BackendAdministradorIsStuck` | frontend/src/components/auth/loginClientes.js:19-58 | an `administrador` the back end authenticates is not retried locally and stays on the login page with nothing written |
| `LoginClientes.LoginLeavesGuardClosed` | frontend/src/components/auth/loginClientes.js:43-59 | login never stores a token, so without one the guard still sends to the login page |
| `LoginClientes.LoginPage.ManejarLoginExitoso` | frontend/src/components/auth/loginClientes.js:43-59 | the store becomes `AfterLogin`; the role's destination is set; a client's form is cleared |
| `LoginClientes.LoginPage.HandleSubmit` | frontend/src/components/auth/loginClientes.js:16-22 | the back end's user when it authenticated, else the local fallback, then the dispatch: the store, the destination and, for a client, cleared credentials; other users keep the credentials, no user changes nothing; loading ends false |
| `LocalAccounts.NuevoCliente` | frontend/src/components/auth/registerClientes.js:86-94 | the stored record has the form's fields and role `cliente` |
| `LocalAccounts.Registrar` | frontend/src/components/auth/registerClientes.js:79-97 | nothing exactly when a stored client has the email; otherwise the list with the new record appended |
| `LocalAccounts.RegistrarKeepsEmailsUnique` | frontend/src/components/auth/registerClientes.js:81-97 | registration keeps the stored emails distinct |
| `LocalAccounts.RegisteredClientCanLogIn` | src/components/auth/loginClientes.js:45-48 | the client just registered is the one the login lookup finds with its email and password |
| `RegisterClientes.StoreAfterLocal` | frontend/src/components/auth/registerClientes.js:78-102 | a taken email leaves the store unchanged; otherwise only the client list is replaced by the extended one |
| `RegisterClientes.RegisteredClientLogsIn` | frontend/src/components/auth/registerClientes.js:78-102 | a client registered locally (other than the demo emails) then logs in locally as that record |
| `RegisterClientes.RegisterPage.VerificarBackend` | frontend/src/components/auth/registerClientes.js:21-31 | a successful health reply marks the back end available, a thrown request marks it unavailable, and an unsuccessful reply changes nothing |
| `RegisterClientes.RegisterPage.RegistrarEnLocalStorage` | frontend/src/components/auth/registerClientes.js:78-102 | the store becomes `StoreAfterLocal`; on success the form is reset and the page goes to the login |
| `RegisterClientes.RegisterPage.RegistrarConBackend` | frontend/src/components/auth/registerClientes.js:53-76 | a thrown request falls back to the local registration; a success resets the form and goes to the login; a failure changes nothing |
| `RegisterClientes.RegisterPage.HandleSubmit` | frontend/src/components/auth/registerClientes.js:40-51 | the back end exactly when it was found available, else (or after a thrown request) the local list; a success resets the form and goes to the login, a refusal or a taken email keeps form and destination; loading ends false |
| `LegacyAuth.ClienteEncontrado` | src/components/auth/loginClientes.js:41-48 | a client is found exactly when both fields are non-empty and some stored client has that email and password, and it is the first such stored record |
| `LegacyAuth.WrongPasswordFindsNobody` | src/components/auth/loginClientes.js:46-48 | a wrong password for every client with the email finds nobody |
| `LegacyAuth.LoginPage.HandleSubmit` | src/components/auth/loginClientes.js:19-71 | the demo emails set their flag and navigate whatever the password; a found client is stored with its flag and goes home with the form cleared; otherwise nothing changes |
| `LegacyAuth.RegisterPage.HandleSubmit` | src/components/auth/registerClientes.js:22-66 | a taken email changes nothing; otherwise the list grows by the new record, the form is reset and the page goes to the login |
| `Home.ClienteDeSesion` | frontend/src/pages/home.js:51-56 | `clienteActual` when stored, else `userData` when its role is `cliente`, else nobody |
| `Home.DatosSolicitud` | frontend/src/pages/home.js:108-113 | the body carries the client's id, name and email under `cliente_id`, `cliente_nombre` and `cliente_email` |
| `Home.DatosSolicitudKeepsForm` | frontend/src/pages/home.js:108-113 | every other field of the body is the form's own |
| `Home.CompleteFormPassesServer` | frontend/src/pages/home.js:102-113 | a form complete for the page that also has a region and a type passes the server's required-field check |
| `Home.LogoutClosesGuard` | frontend/src/pages/home.js:73-77 | after logout the guard sends to the login page and there is no client |
| `Home.Home.CargarSolicitudes` | frontend/src/pages/home.js:63-71 | one GET of the client's list; a reply replaces the list (`[]` when absent); an error keeps it and shows its message |
| `Home.Home.Montar` | frontend/src/pages/home.js:50-61 | no client loads nothing; otherwise the client is set, its list requested, and the list and error become what the reply gives (`ListaTrasCarga`, `ErrorTrasCarga`) |
| `Home.Home.HandleLogout` | frontend/src/pages/home.js:73-82 | exactly the four session keys are removed and the page is emptied |
| `Home.Home.HandleSolicitarServicio` | frontend/src/pages/home.js:84-90 | a visitor goes to the login; a client gets the form |
| `Home.Home.ResetearFormulario` | frontend/src/pages/home.js:131-144 | the initial form, closed |
| `Home.Home.CrearSolicitud` | frontend/src/pages/home.js:97-129 | the error is cleared; an incomplete form sends nothing; otherwise one POST of `DatosSolicitud`, and on success the form is reset and the list and error become what the reload gives |
| `Home.Home.Publicar` | frontend/src/pages/home.js:115-125 | one POST of the body; a reply with `success` resets and closes the form and reloads the client's list, whose reply sets the list and the error; any other reply leaves form, list and error as they were |
| `HomeForm.ResetFormIsIncomplete` | src/pages/home.js:8-19 | a freshly reset form cannot be submitted, and its defaults are Región Metropolitana, `instalacion` and `media` |
| `HomeForm.Recientes` | src/pages/home.js:486 | the first three requests, or all when there are fewer |
| `HomeForm.RecientesAndMasCoverAll` | src/pages/home.js:486-514 | the recent list and the "N more" count account for every request; the count shows exactly when requests are hidden |
| `LegacyHome.NumeroSolicitudShape` | src/pages/home.js:104 | the request number is `SOL-` and the timestamp's last digits, six of them once the timestamp has six digits |
| `LegacyHome.Sello` | src/pages/home.js:101-104 | state `pendiente`, both dates, and the request number |
| `LegacyHome.NuevaSolicitudFields` | src/pages/home.js:94-105 | the stored request is `pendiente`, belongs to the signed-in client and carries both dates and its number |
| `LegacyHome.NuevaSolicitudKeepsForm` | src/pages/home.js:94-105 | every other field is the form's, and its id is the timestamp |
| `LegacyHome.Home.Restore` | src/pages/home.js:47-58 | the session and stored requests are restored only when both the client and the flag are stored |
| `LegacyHome.Home.HandleLogout` | src/pages/home.js:60-67 | exactly the two client keys are removed and the page is emptied |
| `LegacyHome.Home.HandleSolicitarServicio` | src/pages/home.js:69-75 | a visitor goes to the login; a client gets the form |
| `LegacyHome.Home.CrearSolicitud` | src/pages/home.js:85-126 | an incomplete form changes nothing; otherwise the new request is appended, stored, and the form reset and closed |
| `LegacyTecnicoPanel.Transitions` | src/pages/tecnicoPanel.js:232-264 | `pendiente` offers `en_proceso`; `en_proceso` offers `completada` and `pendiente`; every other state offers nothing |
| `LegacyTecnicoPanel.EstadoLabel` | src/pages/tecnicoPanel.js:185-186 | "Pendiente" and "En Proceso" exactly for their states, "Completada" for every other value |
| `LegacyTecnicoPanel.RunStaysKnown` | src/pages/tecnicoPanel.js:232-264 | button presses only reach the three known states |
| `LegacyTecnicoPanel.CompletadaIsFinal` | src/pages/tecnicoPanel.js:259-264 | a run that reaches `completada` ends there |
| `LegacyTecnicoPanel.CompletadaNeedsEnProceso` | src/pages/tecnicoPanel.js:241-249 | completion is only reached from `en_proceso` |
| `LegacyTecnicoPanel.ActualizarEstado` | src/pages/tecnicoPanel.js:63-67 | only rows with the id change, and in them only `estado` |
| `LegacyTecnicoPanel.ActualizarEstadoIdempotent` | src/pages/tecnicoPanel.js:63-67 | pressing the same button twice changes nothing more |
| `LegacyTecnicoPanel.Panel.Press` | src/pages/tecnicoPanel.js:63-67 | the list becomes its id-matched update |
| `LegacyAdminSolicitudes.Filtradas` | src/pages/adminSolicitudes.js:51-53 | `todos` shows the list; any other filter an ordered sublist holding every occurrence of a row in that state, and no other row |
| `LegacyAdminSolicitudes.Counts` | src/pages/adminSolicitudes.js:130-150 | the total and the rows in each of three states, which together never exceed the total |
| `LegacyAdminSolicitudes.CountsMatchFilter` | src/pages/adminSolicitudes.js:130-150 | each card shows the number of rows its state's filter shows |
| `LegacyAdminSolicitudes.BadgeText` | src/pages/adminSolicitudes.js:169 | same length; only the first underscore becomes a space |
| `LegacyAdminSolicitudes.BadgeKeepsLaterUnderscores` | src/pages/adminSolicitudes.js:169 | a state with two underscores keeps the second one |
| `Sorting.SortInPlace` | frontend/src/pages/tecnicoPanel.js:82 | sorting an array in place leaves it equal to the stable insertion sort of its old contents |
| `Sorting.SortIsSorted` | backend/src/server.js:290 | the sort's output is sorted by any total preorder |
| `Sorting.SortIsStable` | frontend/src/pages/tecnicoPanel.js:82 | among equivalent elements the sort keeps the input order |
| `Assoc.Upsert` | backend/src/services/ml.js:60-63 | the keys gain exactly the given one; an existing key keeps the length, a new key is appended at the end with `f(init)` |
| `Assoc.UpsertDistinct` | backend/src/services/ml.js:60-63 | an upsert never makes a key occur twice |
| `Assoc.LookupUpsert` | backend/src/services/ml.js:60-63 | after `set`, the key reads the new value and every other key reads as before |
| `Text.IntToStringRoundTrip` | backend/src/server.js:284 | an integer's decimal text reads back as that integer |
| `Text.TrimSpan` | backend/src/server.js:33 | `trim` keeps the middle of the text and removes only white space around it |
| `Text.TrimLower` | backend/src/server.js:33 | trimming and lower-casing commute |
| `Text.StrLeTotal` | frontend/src/pages/adminMetricas.js:110 | the code-unit order of texts is total |

## Left out

- The request lifecycle the design describes is left out: server-side transition rules, reopening, a history table, per-state timestamps and the `in_process` alias. The code has none of these.
- Password hashing and comparison (bcrypt) are left out: the hash is a parameter and the comparison an arbitrary predicate.
- Token signing (`jwt.js`) is left out. Token verification (`verifyJWT`) is replaced by a `Caller` parameter. `backend/src/middleware/auth.js` is not part of this model: `requireRole` is modelled as a role list whose refusal is the reply `RoleRefused`, on the update route only; the list and technician routes' bodies are not modelled at all.
- The PostgreSQL connection pool is left out. A failing query (the 500 replies other than an unreadable id) is not modelled.
- `GET /api/health`, `GET /api/auth/me`, `GET /api/solicitudes` and `GET /api/tecnicos` are routed by `Server.RouteOf`, but their bodies, which are single queries and joins, are not modelled.
- `Forecast.ForecastML`: numbers are mathematical reals, not IEEE doubles, and `toFixed(2)` rounding is not applied. `parseDate` and the clock are parameters. Counts are integers, and `Number(...)` on non-integer text reads as not a number.
- `Forecast.AddDays` is stated only for non-negative offsets, the only ones the forecast uses.
- `Forecast.FormatDateRoundTrip` and `Forecast.DailyDates` hold for four-digit years only.
- `ml-service/main.py` is not part of this model. The forecast page's `postForecast` client is not part of this model either: its reply is not modelled, only the payload sent.
- Rendering, `alert`, `console`, `setTimeout`, `window.location.reload` and `navigate` are left out. Navigation is recorded as the page's destination field.
- `fetch`, JSON parsing, and the HTTP status handling of the API helper are reduced to a reply parameter. The helper's removal of the session on 401 is not modelled.
- Concurrency and the interleaving of asynchronous handlers are left out: each handler runs to completion with its replies given.
- `Date.now()`, `new Date().toISOString()` and `Math.random()` ids are parameters.
- `TecnicoPanel.Rank`: inherited `Object.prototype` keys such as `constructor` used as a state are read as rank 0. In JavaScript they give a non-number comparison.
- `TecnicoPanel.FechaClave` takes the timestamp parser as a parameter.
- `Metricas.PorDiaFiltrado` requires every filtered row to have a string `fecha`. With any other value, `a.fecha.localeCompare` is not a function, and the sort throws a `TypeError` once it compares that group; this case is left out. Strings are compared by code unit, not by locale collation.
- The metrics loader `cargarMetricas` is left out: two GETs whose replies are only stored. The mapping of the dashboard to the KPI cards is modelled by `Metricas.KpisFromDashboard`.
- The `porDia`, `rendimiento` and `recientes` lists are displayed as received and are left out.
- The admin page's route guard and `cargarTodo` (lines 18-47 of `frontend/src/pages/adminSolicitudes.js`) are left out. They duplicate the route guard and a plain list load.
- `frontend/src/pages/adminTecnicos.js`, `frontend/src/pages/adminClientes.js`, `frontend/src/components/auth/loginAdmin.js` and `src/App.js` are not part of this model.
- The seed and view-creation scripts are not part of this model.
- Form input handlers (`handleChange`, `handleSolicitudChange`) are modelled only as `HomeForm.WithField`, the object spread they perform.
- `ModeloPredictivo.Page.Predict` stops at the payload: the reply's mapping into tables and charts is left out.
- NormEmail lowers only ASCII and Latin-1 capitals (`Text.LowerChar`). JavaScript's `toLowerCase` lowers every Unicode capital, works on UTF-16 code units, and can lengthen a string (`İ` becomes two code units). The same narrower lower-casing is used by `AdminSolicitudes.Query` and `AdminSolicitudes.SearchText`, by `Metricas.ComunaFilter`, by the lower-casing of `Forecast` (`Forecast.LowerOr`), and by `ModeloPredictivo.HistoryItem`.
- UpdatedRows reads the count through `JsValue.ToNumber`, which knows only integer numerals. A count typed as `2.5` or `1e1` is therefore stored as 0, while JavaScript stores `Number(value)`, 2.5 or 10. In the same way `ModeloPredictivo.HorizonOk` and `ModeloPredictivo.Validation` refuse a horizon typed as `7.0` or `1e1`, which JavaScript accepts. `ModeloPredictivo.PredictPayload` and `ModeloPredictivo.Page.Predict` then never send such values.
- RouteOf passes route parameters as they appear in the path. Express percent-decodes `req.params` before the handler runs (`PUT /api/solicitudes/%31` updates id 1), and sends a malformed escape to the error handler, which answers 500. Both are left out. This also applies to `Server.UpdatePathRouted`.
- ScreenFor matches the path as it appears. React Router percent-decodes the location before matching it, which is left out (`Routes.UnknownPathsGoHome` and `Routes.LoginPathMatches` are about undecoded paths).
- ObjectAt reads a stored `userData` or `clienteActual` as absent unless it holds a JSON object. In JavaScript, a stored array, non-zero number, non-empty string or `true` is truthy. So `RequireAuth` (frontend/src/App.js:18-27) lets such a value past the login check and then redirects it home, where the model redirects it to the login.
