# CRM / HR front end — a Dafny model of its logic

The front end serves an insurance agency. One side is a CRM, centred on the
sales ledger ("libro de ventas"). The other side is an HR area: clock-in,
monthly work history, work calendar and the admin's schedule screen. This
project models, in Dafny, the logic inside that front end's React
components. It leaves out the rendering.

**HR side**
- The clock-in screen (`ControlHorario`) keeps a live minute counter from the
  server's minutes and a start time held in browser storage. It also owns the
  rule that sets or clears that start time, and chooses the greeting.
- The history (`HistorialHorario`) groups the days of a month into weeks that
  start on Monday. Each week gets a balance against the contracted hours.
- The calendar (`CalendarioLaboral`) merges the organisation's calendar with
  the employee's days, date by date. It also pairs clock-in and clock-out
  events into blocks.
- The schedule screen (`HorarioCrm`) computes a day's target minutes and its
  signed balance. It also builds the body saved for a day.

**CRM side**
- The six real-time socket handlers update the loaded sale list and the unread
  revision counter (`VentasSocket`).
- The ledger's filters, totals and per-line totals (`Libro`) and the CRM
  ledger page's own updates (`LibroCrm`).
- The row colours and action buttons of the sales table (`VentasTable`).
- The sale form's date conversion and change detection (`VentaForm`).
- The cancellation and reinstatement dialogs (`AnularModal`, `RehabilitarModal`).
- The new-sale page (`NuevaVenta`).

**Shell**
- The route guards (`AuthGuard`, `LegacyGuard`, `LaboralRoute`).
- The application shell's storage handlers and route table (`App`).
- The dashboard's metric switcher (`Comparativa`).

Each component is one module. Pure computations become functions with
lemmas. State a component updates in place becomes a `class`; its methods are
specified against those functions. Shared modules hold the JavaScript built-ins
the components rely on:
- string operations (`Strings`), array operations (`Seqs`) and `sort` (`Sorting`);
- objects used as dictionaries, whose keys keep insertion order (`JsRecord`);
- `Number`/`String` on amounts (`JsNumber`);
- calendar arithmetic (`Dates`), "HH:MM" times (`Clock`) and the
  "X h Y min" label (`Durations`);
- `localStorage` (`Storage`) and the socket's listener table (`SocketBus`).

Premiums are integer cents; `Number(...)` of a premium that is not a number is
`None`, which stands for NaN. Dates are civil (year, month, day) triples with
day numbers counted from 1970-01-01. The current time, the HTTP outcome of each
call, the user agent test and `JSON.parse` of the stored user are parameters.

Some behaviour of the code is stated as written, and proved:
- `formatearBalance(0)` yields "-0min", which the day cell never shows: it
  prints "OK" for a zero balance.
- `toInputDate` keeps "yyyy-mm-dd" values unchanged, so a second conversion is
  harmless only when the first produced that shape. "1/2/25" becomes
  "25-02-01", and a second conversion turns that into "".
- The table's row click clears the revision mark without looking at
  `estado`; only the hand cursor is hidden on cancelled rows.
- The application shell cleans up with `socket.off(event)` and no handler. This
  removes every listener of those events, including other components'
  (`App.MontarDesmontar`).
- The shell's mount effect calls `socket.on` on whatever `getSocket()` returns, and that is `null` without a stored user and token, so for a logged-out visitor the effect throws (`App.Montar`).
- A 403 from the cancellation endpoint is handled exactly like a success
  (`AnularModal.ForbiddenLikeOk`).
- A premium that does not read as a number is always flagged as edited, since
  NaN differs from itself (`VentaForm.NaNAlwaysChanged`).

## Model

| member | source | states |
|---|---|---|
| Session.Item | src/components/auth/ProtectedRoute.tsx:26-27 | reading a storage key gives a value exactly when the key is present, and that value is the stored one |
| AuthGuard.EnJornada | src/components/auth/ProtectedRoute.tsx:59-79 | an admin always counts as on shift; anyone else is on shift exactly when the check answered `DENTRO`, and a failed check means off shift |
| AuthGuard.Decision | src/components/auth/ProtectedRoute.tsx:44-123 | login redirect iff the token or user entry is missing or the user does not parse; loading text iff the check is pending; control-horario redirect iff the CRM firewall applies or a non-admin is on an admin-only route; otherwise the children; given the parse as a parameter, a single render never throws |
| AuthGuard.ProtectedRoute.constructor | src/components/auth/ProtectedRoute.tsx:30-31 | a mounted guard starts loading and off shift |
| AuthGuard.ProtectedRoute.ComprobarJornada | src/components/auth/ProtectedRoute.tsx:59-82 | the effect ends loading and sets the shift flag to `EnJornada` of the role and the check's answer |
| AuthGuard.ProtectedRoute.Render | src/components/auth/ProtectedRoute.tsx:26-54 | the render returns `Decision` of the storage it found, and clears the whole storage exactly when a session exists but its user entry does not parse |
| AuthGuard.EmpleadoEnCrm | src/components/auth/ProtectedRoute.tsx:94-121 | an employee on a `/crm` path is sent to control-horario iff on a phone, after a forced close, off shift, or on an admin-only route; otherwise sees the page |
| AuthGuard.AdminNuncaBloqueado | src/components/auth/ProtectedRoute.tsx:59-64 | once the check has run, an admin sees every path on any device, whatever the storage says |
| AuthGuard.CortafuegosSoloEmpleadosCrm | src/components/auth/ProtectedRoute.tsx:94-97 | `Cortafuegos`: for other roles, or outside `/crm`, only the admin-only flag can redirect |
| AuthGuard.FalloBloqueaCrm | src/components/auth/ProtectedRoute.tsx:74-75 | a failed shift check keeps an employee out of every `/crm` path |
| AuthGuard.BorradoVaALogin | src/components/auth/ProtectedRoute.tsx:52-53 | after the storage is cleared, every later render goes to the login page |
| LegacyGuard.Decision | src/components/ProtectedRoute.tsx:8-25 | login redirect iff token or user is missing; children iff authenticated and either not admin-only or the parsed role is admin; libro-ventas redirect iff admin-only and the parsed role is not admin; the render throws iff admin-only and the user entry does not parse |
| LegacyGuard.SinAdminOnlyNoParsea | src/components/ProtectedRoute.tsx:16-24 | without the admin-only flag the outcome does not depend on the parsed user at all |
| LaboralRoute.Decision | src/pages/laboral/LaboralRoute.tsx:8-30 | login redirect iff token or user is missing or the user does not parse; libro-ventas redirect iff the parsed role is admin; otherwise the children |
| LaboralRoute.Tras | src/pages/laboral/LaboralRoute.tsx:25-29 | a parse failure removes exactly the `token` and `user` keys; every other key and value is kept; otherwise the storage is unchanged |
| LaboralRoute.Render | src/pages/laboral/LaboralRoute.tsx:8-30 | the render returns `Decision` and leaves the storage as `Tras` describes |
| LaboralRoute.LimpiezaEsDefinitiva | src/pages/laboral/LaboralRoute.tsx:25-29 | after the clean-up every later render goes to the login page |
| App.PendingKey | src/App.tsx:51 | the pending marker of a sale starts with `venta_pending_` and is followed by the sale id |
| App.PendingKeyInjective | src/App.tsx:51 | different sales have different pending markers |
| App.SinPendientes | src/App.tsx:55-59 | keeps exactly the keys not prefixed `venta_pending_`, with their values |
| App.SinPendientesIdempotent | src/App.tsx:55-59 | removing all markers twice is removing them once |
| App.SinPendientesAbsorbe | src/App.tsx:49-59 | removing one sale's marker and then all markers equals removing all markers |
| App.OnSolicitudResuelta | src/App.tsx:49-60 | with a sale id, removes only that sale's marker; without one, leaves exactly `SinPendientes` of the storage |
| App.OnForceLogout | src/App.tsx:62-65 | sets `jornada_cerrada` to "1", changes no other key, and navigates to control-horario |
| App.ForceLogoutCierraCrm | src/App.tsx:62-65 | after a forced logout the guard sends an employee on any `/crm` path to control-horario |
| App.Listeners | src/App.tsx:41-62 | one mount adds one listener per event, in registration order |
| App.Registrar | src/App.tsx:41-65 | the effect appends exactly those four listeners to the socket |
| App.Montar | src/App.tsx:38-44 | the mount effect registers the four listeners iff `getSocket()` has a socket, that is iff a user parses and a token is stored; without a session (every logged-out visitor) the first `socket.on` is on null and the effect throws, registering nothing |
| App.Limpiar | src/App.tsx:67-72 | the cleanup removes every listener of the four events |
| App.RemoveEventsKeeps | src/App.tsx:67-72 | `SocketBus.RemoveEvents`: the cleanup keeps exactly the listeners of other events |
| App.MontarDesmontar | src/App.tsx:38-73 | after mount and cleanup, a listener remains iff it was there before and is not of the four events |
| App.MontarDesmontarRestaura | src/App.tsx:38-73 | when nobody else listened to the four events, mount then cleanup restores the listener list exactly |
| App.Buscar | src/App.tsx:76-165 | finds a route iff some route has the path, and the one found has that path |
| App.Resolver | src/App.tsx:160-164 | `Conocida`: an unknown path redirects to control-horario; a known path shows its route's page |
| App.RutasDistintas | src/App.tsx:78-158 | no two routes share a path |
| App.RedireccionTermina | src/App.tsx:161-164 | the catch-all redirect lands on a known route, so it never loops |
| App.RutasAdmin | src/App.tsx:136-158 | exactly `/crm/horario` and `/crm/usuarios` are admin-only, and every route but `/login` is guarded |
| App.Visitar | src/App.tsx:76-165 | an unknown path redirects to control-horario; a guarded route shows what the guard decides |
| App.SoloAdminVeHorarioYUsuarios | src/App.tsx:136-158 | a non-admin visiting `/crm/horario` or `/crm/usuarios` is always redirected, to login or to control-horario |
| App.ResolverAdmin | src/App.tsx:136-158 | the two admin paths are known, guarded and admin-only |
| Comparativa.Posicion | src/components/dashboard/ComparativaBlock.tsx:81-89 | each metric has a place 0..2 on the switcher |
| Comparativa.PosicionInjective | src/components/dashboard/ComparativaBlock.tsx:81-89 | different metrics have different places |
| Comparativa.Titulo | src/components/dashboard/ComparativaBlock.tsx:71-76 | the title of each metric |
| Comparativa.TitulosDistintos | src/components/dashboard/ComparativaBlock.tsx:71-76 | different metrics have different titles |
| Comparativa.Izquierda | src/components/dashboard/ComparativaBlock.tsx:81-84 | `goLeft` moves one place left, staying put at the leftmost metric |
| Comparativa.Derecha | src/components/dashboard/ComparativaBlock.tsx:86-89 | `goRight` moves one place right, staying put at the rightmost metric |
| Comparativa.DisabledIffQuieto | src/components/dashboard/ComparativaBlock.tsx:100-118 | `IzquierdaDisabled` and `DerechaDisabled`: each arrow is disabled exactly where it would not move |
| Comparativa.IdaYVuelta | src/components/dashboard/ComparativaBlock.tsx:81-89 | left undoes right wherever right moves, and right undoes left wherever left moves |
| Comparativa.DosADerecha | src/components/dashboard/ComparativaBlock.tsx:86-89 | two clicks right from anywhere reach the rightmost metric |
| Comparativa.ComparativaBlock.constructor | src/components/dashboard/ComparativaBlock.tsx:33-34 | the card starts with empty data and loading |
| Comparativa.ComparativaBlock.GoLeft | src/components/dashboard/ComparativaBlock.tsx:81-84 | the metric becomes `Izquierda` of the old one; nothing else changes |
| Comparativa.ComparativaBlock.GoRight | src/components/dashboard/ComparativaBlock.tsx:86-89 | the metric becomes `Derecha` of the old one; nothing else changes |
| Comparativa.ComparativaBlock.FetchData | src/components/dashboard/ComparativaBlock.tsx:40-63 | loading ends; the data is the response body, or empty after a `null` body or a failure |
| ControlHorario.MinutosEnVivo | src/pages/laboral/ControlHorario.tsx:145-160 | the server minutes when out or with no stored start; otherwise the server minutes plus the whole minutes elapsed since the start, so never fewer than the server minutes once the clock has passed the start |
| ControlHorario.MinutosEnVivoMonotone | src/pages/laboral/ControlHorario.tsx:153-159 | the live counter never goes back as the clock moves forward |
| ControlHorario.MinutosEnVivoTick | src/pages/laboral/ControlHorario.tsx:156-159 | sixty seconds of clock time add exactly one minute to the counter while in |
| ControlHorario.InicioTras | src/pages/laboral/ControlHorario.tsx:43-62 | an answer saying out removes the stored start; an answer saying in keeps an existing start and stores now only when none exists |
| ControlHorario.InicioStable | src/pages/laboral/ControlHorario.tsx:44-52 | reloading while in never moves the stored start |
| ControlHorario.Saludo | src/pages/laboral/ControlHorario.tsx:99-105 | chosen from the state before the toggle: "Buenos días" before 14h and "Buenas tardes" from 14h after clocking in, "Hasta pronto" after clocking out |
| ControlHorario.SaludosDistintos | src/pages/laboral/ControlHorario.tsx:99-105 | the three messages differ for every name |
| ControlHorario.ControlHorarioPage.constructor | src/pages/laboral/ControlHorario.tsx:15-21 | the page starts loading, with the empty record and no message |
| ControlHorario.ControlHorarioPage.CargarEstado | src/pages/laboral/ControlHorario.tsx:33-83 | a record sets the record and the stored start as `InicioTras` says, and is returned; an empty or failed answer resets the record to out with 0 minutes and keeps the stored start; loading ends |
| ControlHorario.ControlHorarioPage.Fichar | src/pages/laboral/ControlHorario.tsx:90-114 | on success, reloads as `CargarEstado` and shows the greeting chosen from the state before the call; on failure, adds one alert with the server message or "Error al fichar" and changes nothing else |
| ControlHorario.FueraShowsServerMinutes | src/pages/laboral/ControlHorario.tsx:53-62 | after an answer saying out, the counter shows the server minutes whatever the clock |
| ControlHorario.DentroStartsAtServerMinutes | src/pages/laboral/ControlHorario.tsx:43-52 | right after the first answer saying in, the counter equals the server minutes |
| Durations.JsRem | src/components/Laboral/HistorialHorario.tsx:68-69 | JavaScript's `%`: the Euclidean remainder on non-negative input, a remainder in (-b, 0] on negative input |
| Durations.JsRemQuot | src/components/Laboral/HistorialHorario.tsx:68-69 | `a` is `b` times the quotient truncated toward zero plus `a % b`, as ECMAScript defines `%`; with the sign and range of `JsRem` this fixes the remainder for negative counts too |
| Durations.MinToHorasParts | src/components/Laboral/HistorialHorario.tsx:68-69 | `MinToHoras`: for a non-negative count the label shows `n div 60` hours and `n mod 60` minutes, with `h*60+m == n` and `m < 60` |
| Durations.ReadHorasOf | src/pages/laboral/ControlHorario.tsx:122-126 | reading "H h M min" gives `H*60+M` |
| Durations.MinToHorasRoundTrip | src/components/Laboral/HistorialHorario.tsx:68-69 | reading the label of a non-negative count gives the count back |
| Durations.MinToHorasInjective | src/pages/laboral/ControlHorario.tsx:122-126 | different non-negative counts get different labels |
| Dates.DaysInMonth | src/components/Laboral/CalendarioLaboral.tsx:282 | every month has 28 to 31 days |
| Dates.WeekdayOfDayNumber | src/components/Laboral/HistorialHorario.tsx:43 | `getDay()` of a day number is in 0..6 |
| Dates.KnownDays | src/components/Laboral/HistorialHorario.tsx:42-43 | 1970-01-01 is day 0 and a Thursday; 2025-01-01 is a Wednesday |
| Dates.DayNumberNextDay | src/components/Laboral/HistorialHorario.tsx:44-47 | the next day of a month is the next day number |
| Dates.IsoWeekday | src/components/Laboral/HistorialHorario.tsx:43 | `getDay() \|\| 7` is in 1..7 and agrees with `getDay()` modulo 7 |
| Dates.MondayOf | src/components/Laboral/HistorialHorario.tsx:44-47 | the computed Monday is a Monday, and the day lies between it and six days later |
| Dates.SameWeekIff | src/components/Laboral/HistorialHorario.tsx:41-55 | two days share a Monday iff the second lies in the first one's Monday-to-Sunday week |
| Dates.MondaysApart | src/components/Laboral/HistorialHorario.tsx:41-55 | two Mondays are a whole number of weeks apart |
| Dates.SundayBelongsToPrecedingMonday | src/components/Laboral/HistorialHorario.tsx:43-45 | a Sunday counts as day 7, so its week starts six days earlier |
| Dates.MonthStart | src/components/Laboral/HistorialHorario.tsx:76 | `new Date(y, i, 1)` is a valid month whose index is the full year times 12 plus `i`, years 0..99 meaning 1900..1999 |
| Dates.ParseFormatMonthKey | src/components/Laboral/HistorialHorario.tsx:75-77 | `FormatMonthKey` and `ParseMonthKey`: a formatted month key reads back as its year and month |
| Dates.MonthStartShift | src/components/Laboral/HistorialHorario.tsx:76 | shifting a month by `delta` moves its index by exactly `delta` from year 100 on |
| Dates.MonthIndexInjective | src/components/Laboral/HistorialHorario.tsx:83-85 | a month start is determined by its index |
| Dates.SameMonthKey | src/components/Laboral/HistorialHorario.tsx:77 | months with the same index have the same key |
| Dates.ShiftFormattedKey | src/components/Laboral/HistorialHorario.tsx:74-78 | `ShiftMonthKey`: shifting a well-formed key by `delta` gives the key of the month `delta` away |
| Dates.ShiftMonthKeyRoundTrip | src/components/Laboral/HistorialHorario.tsx:74-78 | `sumarMes(sumarMes(m, d), -d) == m` when both months are from year 100 on |
| Dates.ShiftMonthKeyTwoDigitYear | src/components/Laboral/HistorialHorario.tsx:76 | the two-digit year quirk: one month before January 100 is December 99, which JavaScript then reads as 1999 |
| Dates.ParseFormatDate | src/pages/crm/horario/HorarioCRM.tsx:330-333 | a formatted date reads back as the same date |
| Dates.FormatDateInjective | src/pages/crm/horario/HorarioCRM.tsx:330-333 | different dates have different "YYYY-MM-DD" strings |
| HistorialHorario.DiasTrabajados | src/components/Laboral/HistorialHorario.tsx:138-140 | the number of days with minutes > 0, at most the number of days |
| HistorialHorario.TotalOfWorkedDays | src/components/Laboral/HistorialHorario.tsx:142-145 | `TotalMinutosMes`: with no negative day, the month total is the sum over the days worked, and is non-negative |
| HistorialHorario.WeekKey | src/components/Laboral/HistorialHorario.tsx:41-50 | the key of a date is the Monday of its week; a Sunday's key is six days earlier |
| HistorialHorario.SameWeek | src/components/Laboral/HistorialHorario.tsx:41-50 | two dates share a bucket iff they lie in the same Monday-to-Sunday week |
| HistorialHorario.AddDia | src/components/Laboral/HistorialHorario.tsx:159-172 | one step of the bucketing keeps the record well formed |
| HistorialHorario.Bucket | src/components/Laboral/HistorialHorario.tsx:162-168 | the bucket of a week: the existing one, or an empty one with total 0 |
| HistorialHorario.Appended | src/components/Laboral/HistorialHorario.tsx:170-171 | a bucket with the day appended and its minutes added |
| HistorialHorario.Semanas | src/components/Laboral/HistorialHorario.tsx:154-173 | the buckets of a month form a well-formed record |
| HistorialHorario.DiasDeSemana | src/components/Laboral/HistorialHorario.tsx:159-172 | the days of the month whose week key is `k`, and all of them |
| HistorialHorario.HasWeekSnoc | src/components/Laboral/HistorialHorario.tsx:159-172 | a week occurs in a list with one more day iff it occurred before or is that day's week |
| HistorialHorario.SemanasKeys | src/components/Laboral/HistorialHorario.tsx:154-173 | the buckets are exactly the weeks some day falls in |
| HistorialHorario.DiasDeSemanaNone | src/components/Laboral/HistorialHorario.tsx:159-172 | a week no day falls in has no days |
| HistorialHorario.SemanasBucket | src/components/Laboral/HistorialHorario.tsx:154-173 | each bucket holds exactly its week's days in input order, and its total is their sum, so every day lands in exactly one bucket |
| HistorialHorario.SemanasTotal | src/components/Laboral/HistorialHorario.tsx:142-173 | the bucket totals add up to the month total |
| HistorialHorario.AddDiaTotal | src/components/Laboral/HistorialHorario.tsx:170-171 | one day adds its minutes to the sum of the bucket totals |
| HistorialHorario.AppendToBucketTotal | src/components/Laboral/HistorialHorario.tsx:170-171 | appending a day to one bucket adds its minutes to the sum of all buckets |
| HistorialHorario.SemanasPrefix | src/components/Laboral/HistorialHorario.tsx:159-173 | the buckets of one more day are one more bucketing step |
| HistorialHorario.CrearSemana | src/components/Laboral/HistorialHorario.tsx:162-168 | after the creation step the week has a bucket |
| HistorialHorario.Anotar | src/components/Laboral/HistorialHorario.tsx:170-171 | appending to an existing bucket keeps the record well formed |
| HistorialHorario.CrearYAnotar | src/components/Laboral/HistorialHorario.tsx:162-171 | creating a missing bucket and then filling it is appending to the week's bucket |
| HistorialHorario.AgruparSemanas | src/components/Laboral/HistorialHorario.tsx:154-173 | the loop builds exactly `Semanas` of the days |
| HistorialHorario.DiffLabel | src/components/Laboral/HistorialHorario.tsx:249-263 | "+" and the size for a surplus, "-" and the size for a shortfall, no sign for an exact week |
| HistorialHorario.ReadSigned | src/components/Laboral/HistorialHorario.tsx:262-263 | a signed label reads back with its sign |
| HistorialHorario.ReadUnsigned | src/components/Laboral/HistorialHorario.tsx:262-263 | an unsigned label reads back as its size |
| HistorialHorario.DiffLabelRoundTrip | src/components/Laboral/HistorialHorario.tsx:249-263 | every balance label reads back as its balance, so the sign and the size are both shown |
| HistorialHorario.DiffColorOf | src/components/Laboral/HistorialHorario.tsx:254-260 | green iff the balance is positive, red iff it is negative |
| HistorialHorario.WeekBalance | src/components/Laboral/HistorialHorario.tsx:135-136 | a week's balance label reads back as the minutes worked minus the contracted hours times 60, and is green iff that is a surplus; with no contract hours every minute worked is surplus |
| HistorialHorario.SemanasNonNegative | src/components/Laboral/HistorialHorario.tsx:154-173 | with no negative day, no bucket total is negative |
| HistorialHorario.SemanasVisiblesTotal | src/components/Laboral/HistorialHorario.tsx:231-232 | `SemanasVisibles`: with no negative day, the listed weeks still add up to the month total |
| HistorialHorario.FichajesOrdenados | src/components/Laboral/HistorialHorario.tsx:323-325 | the same events, as a multiset, in ascending order of time; times are compared by character code, which orders "HH:MM" times as `localeCompare` does |
| HistorialHorario.Toggle | src/components/Laboral/HistorialHorario.tsx:290-292 | clicking a day opens it unless it is the one open, which it closes |
| HistorialHorario.ToggleTwice | src/components/Laboral/HistorialHorario.tsx:290-292 | two clicks on a closed day leave it closed |
| HistorialHorario.EsMesFuturoOfKey | src/components/Laboral/HistorialHorario.tsx:80-86 | `EsMesFuturo`: a month key is in the future iff its month comes after the current one |
| HistorialHorario.SiguienteDisabledIff | src/components/Laboral/HistorialHorario.tsx:213-214 | `SiguienteDisabled`: "next" is disabled iff the month shown is the current month or later |
| HistorialHorario.MesSiguienteOfKey | src/components/Laboral/HistorialHorario.tsx:212-214 | `MesSiguiente`: before the current month, "next" moves one month on; from the current month on it stays |
| HistorialHorario.HistorialHorarioView.constructor | src/components/Laboral/HistorialHorario.tsx:96-99 | the screen starts on the system month with no data and no day open |
| HistorialHorario.HistorialHorarioView.Cargar | src/components/Laboral/HistorialHorario.tsx:102-114 | the answer's days and contract hours, or no data after a failure; the month and open day are kept |
| HistorialHorario.HistorialHorarioView.Anterior | src/components/Laboral/HistorialHorario.tsx:180 | the month moves one back |
| HistorialHorario.HistorialHorarioView.Siguiente | src/components/Laboral/HistorialHorario.tsx:212-214 | the month becomes `MesSiguiente`: one on, unless the button is disabled |
| HistorialHorario.HistorialHorarioView.ToggleDay | src/components/Laboral/HistorialHorario.tsx:290-292 | the open day becomes `Toggle` of the old one; nothing else changes |
| CalendarioLaboral.Coalesce | src/components/Laboral/CalendarioLaboral.tsx:166 | `a ?? b`: the first value when present, else the second |
| CalendarioLaboral.BloqueEn | src/components/Laboral/CalendarioLaboral.tsx:108-115 | the block an ENTRADA opens starts at its time, and has a clock-out iff the next event exists and is a SALIDA, with that event's time |
| CalendarioLaboral.EntradasHasta | src/components/Laboral/CalendarioLaboral.tsx:107-108 | exactly the indices of the ENTRADA events, in increasing order |
| CalendarioLaboral.BloquesPorEntrada | src/components/Laboral/CalendarioLaboral.tsx:104-120 | `Bloques`: the k-th block is the one opened by the k-th ENTRADA, so blocks follow the ENTRADA events one for one and in order, and a SALIDA never opens one |
| CalendarioLaboral.BloquesCount | src/components/Laboral/CalendarioLaboral.tsx:104-120 | as many blocks as ENTRADA events |
| CalendarioLaboral.AgruparFichajes | src/components/Laboral/CalendarioLaboral.tsx:104-120 | the indexed loop builds exactly the blocks described by `BloquesPorEntrada` |
| CalendarioLaboral.DuracionBloque | src/components/Laboral/CalendarioLaboral.tsx:564-571 | a block shows a duration iff its clock-out time is present and non-empty |
| CalendarioLaboral.DuracionDeLecturas | src/components/Laboral/CalendarioLaboral.tsx:564-571 | a closed block whose times read as `a` and `z` minutes shows `z - a` minutes |
| CalendarioLaboral.ReadMinutosPartOf | src/components/Laboral/CalendarioLaboral.tsx:177 | reading "h Ym" after H hours gives `H*60+Y` |
| CalendarioLaboral.ReadHorasLabelOf | src/components/Laboral/CalendarioLaboral.tsx:177 | reading "Xh Ym" gives `X*60+Y` |
| CalendarioLaboral.ReadHorasLabelHead | src/components/Laboral/CalendarioLaboral.tsx:177 | the hours are read up to the first non-digit |
| CalendarioLaboral.HorasLabel | src/components/Laboral/CalendarioLaboral.tsx:175-178 | empty iff nothing was worked; otherwise the "Xh Ym" label reads back as the minutes |
| CalendarioLaboral.FromGeneral | src/components/Laboral/CalendarioLaboral.tsx:160-168 | an organisation day gives its date, no time, no events, no shift, and its `estado`, else its `tipo` |
| CalendarioLaboral.FromEmpleado | src/components/Laboral/CalendarioLaboral.tsx:171-191 | an employee day gives its minutes, label and events; its own `estado`, else the one already recorded for the date; and shift and times from the employee record only |
| CalendarioLaboral.PutGenerales | src/components/Laboral/CalendarioLaboral.tsx:160-168 | writing organisation days keeps the record well formed |
| CalendarioLaboral.PonerGeneral | src/components/Laboral/CalendarioLaboral.tsx:161-167 | one organisation day's assignment keeps the record well formed |
| CalendarioLaboral.PutEmpleados | src/components/Laboral/CalendarioLaboral.tsx:171-192 | writing employee days keeps the record well formed |
| CalendarioLaboral.PonerEmpleado | src/components/Laboral/CalendarioLaboral.tsx:172-191 | one employee day's assignment keeps the record well formed |
| CalendarioLaboral.PutGeneralesPrefix | src/components/Laboral/CalendarioLaboral.tsx:160-168 | one more organisation day is one more assignment |
| CalendarioLaboral.PutEmpleadosPrefix | src/components/Laboral/CalendarioLaboral.tsx:171-192 | one more employee day is one more assignment |
| CalendarioLaboral.Merge | src/components/Laboral/CalendarioLaboral.tsx:157-194 | the calendar built from empty is a well-formed record |
| Seqs.Map | src/components/Laboral/CalendarioLaboral.tsx:160-172 | `xs.map(f)`: as many elements, each `f` of the element in the same place; the dates of the organisation days and of the employee days are taken with it |
| CalendarioLaboral.PutGeneralesKeys | src/components/Laboral/CalendarioLaboral.tsx:160-168 | after the organisation days, the dates are the old ones plus theirs |
| CalendarioLaboral.PutEmpleadosKeys | src/components/Laboral/CalendarioLaboral.tsx:171-192 | after the employee days, the dates are the old ones plus theirs |
| CalendarioLaboral.PonerEmpleadoKeys | src/components/Laboral/CalendarioLaboral.tsx:172 | one assignment adds exactly its date |
| CalendarioLaboral.FechasESnoc | src/components/Laboral/CalendarioLaboral.tsx:171-172 | the dates of one more employee day are the old dates plus its own |
| CalendarioLaboral.MergeKeys | src/components/Laboral/CalendarioLaboral.tsx:157-192 | one entry per date, and the dates are exactly those of either source |
| CalendarioLaboral.PutEmpleadosOutside | src/components/Laboral/CalendarioLaboral.tsx:171-192 | employee days for other dates leave an entry as it was |
| CalendarioLaboral.PutGeneralesOutside | src/components/Laboral/CalendarioLaboral.tsx:160-168 | organisation days for other dates leave an entry as it was |
| CalendarioLaboral.PutGeneralesLast | src/components/Laboral/CalendarioLaboral.tsx:160-168 | of several organisation days for one date, the last one written stays |
| CalendarioLaboral.PutEmpleadosOnly | src/components/Laboral/CalendarioLaboral.tsx:171-192 | an employee day that is the only one for its date is written over what the organisation days left |
| CalendarioLaboral.MergeGeneralOnly | src/components/Laboral/CalendarioLaboral.tsx:160-168 | a date only the organisation calendar has keeps the organisation state, with 0 minutes and an empty label |
| CalendarioLaboral.MergeEmpleado | src/components/Laboral/CalendarioLaboral.tsx:171-191 | for a date in both sources, the entry is exactly the employee day's, with the organisation state inherited: `estado` is the employee value when present, else the organisation value; date, minutes, label, events, shift and all four shift times come from the employee record |
| CalendarioLaboral.MergeEmpleadoOnly | src/components/Laboral/CalendarioLaboral.tsx:171-191 | a date only the employee calendar has takes the employee record, with no inherited state |
| CalendarioLaboral.TotalsOfMonth | src/components/Laboral/CalendarioLaboral.tsx:210-219 | `DiasTrabajadosMes` and `TotalMinutos`: the count is the number of entries with minutes > 0, and the total is their sum, never negative |
| CalendarioLaboral.GetDayClass | src/components/Laboral/CalendarioLaboral.tsx:226-260 | VACACIONES, BAJA and FESTIVO win; then DIA_LIBRE only on weekdays; then the weekend; then worked days; otherwise the default class |
| CalendarioLaboral.EsFinDeSemanaSemanal | src/components/Laboral/CalendarioLaboral.tsx:98-102 | Saturday and Sunday, the last two days of the Monday-first week, are the weekend, and the same weekday a week later is again weekend or not |
| CalendarioLaboral.Offset | src/components/Laboral/CalendarioLaboral.tsx:272-275 | a column in 0..6 with Monday at 0 and Sunday at 6 |
| CalendarioLaboral.MesAnterior | src/components/Laboral/CalendarioLaboral.tsx:282 | stays in 0..11; moves one back, except at 0 where it stays |
| CalendarioLaboral.MesSiguiente | src/components/Laboral/CalendarioLaboral.tsx:301 | stays in 0..11; moves one on, except at 11 where it stays |
| CalendarioLaboral.DisabledIffNoMove | src/components/Laboral/CalendarioLaboral.tsx:282-302 | `AnteriorDisabled` and `SiguienteDisabled`: each month button is disabled exactly when pressing it would change nothing |
| CalendarioLaboral.Fusionar | src/components/Laboral/CalendarioLaboral.tsx:157-192 | the two `forEach` loops build exactly `Merge` of the two sources |
| CalendarioLaboral.CalendarioLaboralView.constructor | src/components/Laboral/CalendarioLaboral.tsx:131-135 | the view starts on the given month with an empty calendar and no open day |
| CalendarioLaboral.CalendarioLaboralView.Cargar | src/components/Laboral/CalendarioLaboral.tsx:140-197 | the calendar becomes `Merge` of the two sources whatever it held before, so reloading the same inputs gives the same calendar |
| CalendarioLaboral.CalendarioLaboralView.Seleccionar | src/components/Laboral/CalendarioLaboral.tsx:412-417 | a click opens the entry for the date when there is one, and otherwise changes nothing |
| CalendarioLaboral.CalendarioLaboralView.Anterior | src/components/Laboral/CalendarioLaboral.tsx:282 | the month becomes `MesAnterior` of the old one |
| CalendarioLaboral.CalendarioLaboralView.Siguiente | src/components/Laboral/CalendarioLaboral.tsx:301 | the month becomes `MesSiguiente` of the old one |
| CalendarioLaboral.CalendarioLaboralView.Cerrar | src/components/Laboral/CalendarioLaboral.tsx:619-624 | "Cerrar" closes the day panel |
| Clock.TimeString | src/pages/crm/horario/HorarioCRM.tsx:350-354 | the "HH:MM" text of a time of day has five characters with a colon in the middle |
| Clock.ClockMinutesOfParts | src/pages/crm/horario/HorarioCRM.tsx:351-353 | two numbers around a colon read as `h*60+m` |
| Clock.ClockMinutesOfTime | src/pages/crm/horario/HorarioCRM.tsx:351-353 | `ClockMinutes`: reading the text of a time gives its minutes since midnight |
| Clock.TimeOrder | src/pages/crm/horario/HorarioCRM.tsx:350-354 | for two times of day, string order is time order |
| HorarioCrm.SubNum | src/pages/crm/horario/HorarioCRM.tsx:353 | a difference is a number iff both operands are, and then it is their difference |
| HorarioCrm.SpanOf | src/pages/crm/horario/HorarioCRM.tsx:350-354 | `CalcularMinutos`: `calcularMinutos` of two readable times is `(h2*60+m2)-(h1*60+m1)` |
| HorarioCrm.SpanBounds | src/pages/crm/horario/HorarioCRM.tsx:350-354 | for valid times the span lies in -1439..1439, and is non-negative iff the first time is not later |
| HorarioCrm.AddNum | src/pages/crm/horario/HorarioCRM.tsx:365-368 | a sum is a number iff both operands are, and then it is their sum |
| HorarioCrm.JsRoundDiv | src/pages/crm/horario/HorarioCRM.tsx:394 | `Math.round(n/d)`: the nearest integer, halves rounded up |
| HorarioCrm.CalcularObjetivoDia | src/pages/crm/horario/HorarioCRM.tsx:357-395 | all four times: the sum of both spans; else the morning pair alone; else the afternoon pair alone; else the shift target |
| HorarioCrm.TurnoObjetivo | src/pages/crm/horario/HorarioCRM.tsx:388-394 | 240 for a half-day shift, 480 for a full day, else a fifth of the weekly contract rounded to the nearest minute |
| HorarioCrm.ObjetivoSemanal | src/pages/crm/horario/HorarioCRM.tsx:392-394 | a 40-hour week gives 480 minutes a day, a 37.5-hour week 450 |
| HorarioCrm.CalcularBalanceDia | src/pages/crm/horario/HorarioCRM.tsx:399-410 | null iff there is no shift or nothing was worked; otherwise minutes worked minus the target |
| HorarioCrm.Magnitude | src/pages/crm/horario/HorarioCRM.tsx:415-423 | the unsigned part has the "Xh" form iff there is at least an hour, and starts with a digit |
| HorarioCrm.FormatearBalance | src/pages/crm/horario/HorarioCRM.tsx:414-424 | "+" iff the balance is positive, "-" otherwise (zero included); hours shown iff `|min| >= 60` |
| HorarioCrm.ReadMagnitudeOf | src/pages/crm/horario/HorarioCRM.tsx:415-423 | the unsigned part reads back as `|min|`, so `h*60+m == |min|` with `m < 60` |
| HorarioCrm.MagnitudeShape | src/pages/crm/horario/HorarioCRM.tsx:415-423 | "Hh Mmin" with `H = n div 60`, `M = n mod 60` from an hour on, else "Mmin" |
| HorarioCrm.ReadMagnitudeHours | src/pages/crm/horario/HorarioCRM.tsx:420 | "Hh Mmin" reads back as `H*60+M` |
| HorarioCrm.ReadMagnitudeMinutes | src/pages/crm/horario/HorarioCRM.tsx:423 | "Mmin" reads back as `M` |
| HorarioCrm.FormatearBalanceRoundTrip | src/pages/crm/horario/HorarioCRM.tsx:414-424 | every balance label reads back as its balance |
| HorarioCrm.BalanceLabel | src/pages/crm/horario/HorarioCRM.tsx:682 | "OK" iff the balance is zero; otherwise the label reads back as the balance |
| HorarioCrm.BalanceOkIff | src/pages/crm/horario/HorarioCRM.tsx:673-682 | with a shift and time worked, the cell shows "OK" iff the minutes worked equal the target |
| HorarioCrm.NormalizarFecha | src/pages/crm/horario/HorarioCRM.tsx:330-333 | defined iff the date has at least three dash-separated parts |
| HorarioCrm.NormalizarFechaIdempotent | src/pages/crm/horario/HorarioCRM.tsx:330-333 | normalising twice is normalising once |
| HorarioCrm.NormalizarFechaOfDate | src/pages/crm/horario/HorarioCRM.tsx:330-333 | a well-formed "YYYY-MM-DD" date is left unchanged |
| HorarioCrm.FormatFechaESRoundTrip | src/pages/crm/horario/HorarioCRM.tsx:14-17 | "YYYY-MM-DD" becomes "DD/MM/YYYY", which the sale form's date reader turns back into the ISO date |
| HorarioCrm.GetOffsetMes | src/pages/crm/horario/HorarioCRM.tsx:319-323 | a column in 0..6 for a readable key, none for an unreadable one |
| HorarioCrm.FirstColumn | src/pages/crm/horario/HorarioCRM.tsx:321-322 | the weekday of the month's first day moved so that Monday is 0 and Sunday 6 |
| HorarioCrm.DayNumberInMonth | src/pages/crm/horario/HorarioCRM.tsx:325-328 | day `d` of a month is `d-1` days after the first |
| HorarioCrm.GetOffsetMesOfKey | src/pages/crm/horario/HorarioCRM.tsx:319-323 | a well-formed month key gets the column of its own first day |
| HorarioCrm.FirstColumnPlacesDays | src/pages/crm/horario/HorarioCRM.tsx:319-323 | after that offset, every day of the month sits under its own weekday, Monday first |
| HorarioCrm.EmpleadoParam | src/pages/crm/horario/HorarioCRM.tsx:242 | "ALL" is sent as null; any other id as itself |
| HorarioCrm.MarcaPayload | src/pages/crm/horario/HorarioCRM.tsx:239-247 | a state button saves the state with no shift and no times |
| HorarioCrm.HorarioPayload | src/pages/crm/horario/HorarioCRM.tsx:269-290 | never both a state and a shift; with a state, no shift and no times; morning times iff the shift covers the morning, afternoon times iff it covers the afternoon |
| HorarioCrm.Marcar | src/pages/crm/horario/HorarioCRM.tsx:232-261 | `marcarDia(estado, turno)`: saves iff a state is given, and then saves `MarcaPayload` of it; without a state, selects the shift and clears the state, leaving the rest of the day |
| HorarioCrm.BotonTurnoOnStateDay | src/pages/crm/horario/HorarioCRM.tsx:842-866 | as written, a shift button on a day that has a state saves that state again, with no shift |
| HorarioCrm.BotonTurnoIntended | src/pages/crm/horario/HorarioCRM.tsx:255-260 | the shift button as intended: on any day it only selects the shift, clears the state and keeps the date |
| HorarioCrm.BotonTurnoSinEstado | src/pages/crm/horario/HorarioCRM.tsx:842-866 | on a day without a state the written buttons already do what was intended |
| HorarioCrm.ShiftThenSave | src/pages/crm/horario/HorarioCRM.tsx:255-295 | after the intended shift button, saving sends that shift, no state, the open day's date, and morning times iff the shift is not the afternoon one |
| HorarioCrm.HorarioCrmPage.constructor | src/pages/crm/horario/HorarioCRM.tsx:61-108 | the page starts on the given month and employee, with no open day, empty times, nothing saved and no reload |
| HorarioCrm.HorarioCrmPage.Abrir | src/pages/crm/horario/HorarioCRM.tsx:716 | clicking a cell opens that day |
| HorarioCrm.HorarioCrmPage.MarcarDia | src/pages/crm/horario/HorarioCRM.tsx:232-261 | without an open day, nothing; a state posts `MarcaPayload`; on success the day closes and the month reloads, on failure the day stays open and nothing reloads; without a state the shift is only selected and nothing is posted |
| HorarioCrm.HorarioCrmPage.ShiftButton | src/pages/crm/horario/HorarioCRM.tsx:842-866 | a shift button on the open day does what `BotonTurno` decides: posts the day's state again (closing and reloading only on success) or selects the shift without posting |
| HorarioCrm.HorarioCrmPage.SetHoras | src/pages/crm/horario/HorarioCRM.tsx:886-919 | typing the times changes only the times |
| HorarioCrm.HorarioCrmPage.GuardarHorario | src/pages/crm/horario/HorarioCRM.tsx:266-295 | with an open day, posts `HorarioPayload` of it; on success the day closes and the month reloads, on failure it stays open and nothing reloads; without an open day nothing is posted |
| HorarioCrm.HorarioCrmPage.CambiarMes | src/pages/crm/horario/HorarioCRM.tsx:427-436 | the month becomes the key `delta` months away |
| Ventas.Spread | src/services/ventasSocketHandlers.ts:28 | `{ ...v, ...patch }`, field by field in both directions: a field the patch carries takes the patch's value, a field it leaves out keeps the row's value |
| Ventas.SpreadEmpty | src/services/ventasSocketHandlers.ts:28 | spreading an empty patch leaves the row as it is |
| Ventas.SpreadIdempotent | src/services/ventasSocketHandlers.ts:28 | spreading the same patch twice is spreading it once |
| Ventas.MapWhere | src/services/ventasSocketHandlers.ts:25-31 | same length; rows with the id are transformed, every other row is unchanged |
| Ventas.RemoveId | src/services/ventasSocketHandlers.ts:40-42 | no row left carries the id, and every row with another id is kept |
| Ventas.RemoveIdAppend | src/services/ventasSocketHandlers.ts:40-42 | removal distributes over concatenation, so the surviving rows keep their order |
| Ventas.RemoveIdAbsent | src/services/ventasSocketHandlers.ts:40-42 | removing an id no row carries changes nothing |
| Ventas.RemoveIdLength | src/services/ventasSocketHandlers.ts:40-42 | exactly the rows carrying the id go |
| SocketBus.RemoveFirst | src/services/ventasSocketHandlers.ts:140-145 | `off(event, fn)`: when the listener is registered, exactly its first occurrence is removed and the others keep their order; otherwise nothing changes |
| SocketBus.RemoveEvent | src/App.tsx:68-71 | `off(event)` keeps exactly the listeners of other events |
| SocketBus.RemoveFirstAfter | src/services/ventasSocketHandlers.ts:140-145 | removing a listener that occurs only after a prefix leaves that prefix alone |
| SocketBus.RemoveEachAppended | src/services/ventasSocketHandlers.ts:129-146 | `RemoveEach`: removing the listeners just appended gives back the earlier list |
| SocketBus.Socket.On | src/services/ventasSocketHandlers.ts:129-134 | `on` appends the listener |
| SocketBus.Socket.Off | src/services/ventasSocketHandlers.ts:140-145 | `off(event, fn)` removes that listener |
| SocketBus.Socket.OffEvent | src/App.tsx:68-71 | `off(event)` removes every listener of the event |
| Storage.LocalStorage.GetItem | src/pages/laboral/ControlHorario.tsx:44 | `getItem` gives the value of a present key and nothing for a missing one |
| Storage.LocalStorage.SetItem | src/pages/laboral/ControlHorario.tsx:48-51 | `setItem` writes one key and leaves the others |
| Storage.LocalStorage.RemoveItem | src/pages/laboral/ControlHorario.tsx:55 | `removeItem` removes one key and leaves the others |
| Storage.LocalStorage.Clear | src/components/auth/ProtectedRoute.tsx:52 | `clear` empties the storage |
| VentasSocket.Actualizada | src/services/ventasSocketHandlers.ts:22-32 | a no-op without `_id`; otherwise same length and order, the pushed fields spread over the rows with that id, every other row unchanged |
| VentasSocket.Eliminada | src/services/ventasSocketHandlers.ts:37-43 | a no-op without id; otherwise every row with the id is removed and the others stay in order |
| VentasSocket.Anulada | src/services/ventasSocketHandlers.ts:48-58 | the matching rows are the same sale with `estado` ANULADA and no revision mark, every other field kept; the rest are unchanged |
| VentasSocket.Rehabilitada | src/services/ventasSocketHandlers.ts:63-73 | the matching rows are the same sale without `estado` and revision mark, every other field kept; the rest are unchanged |
| VentasSocket.Creada | src/services/ventasSocketHandlers.ts:81-91 | the matching rows are marked "pendiente"; the rest are unchanged |
| VentasSocket.Resuelta | src/services/ventasSocketHandlers.ts:104-113 | a no-op without id or outcome; otherwise the matching rows take the outcome as their revision mark |
| VentasSocket.RevisionIncrement | src/services/ventasSocketHandlers.ts:115-122 | 1 exactly for a non-admin with an id and an outcome of "aceptada" or "rechazada", else 0 |
| VentasSocket.AnuladaIdempotent | src/services/ventasSocketHandlers.ts:48-58 | announcing a cancellation twice is announcing it once |
| VentasSocket.RehabilitadaUndoesAnulada | src/services/ventasSocketHandlers.ts:48-73 | reinstating undoes a cancellation of rows that had no `estado` |
| VentasSocket.ActualizadaAfterEliminada | src/services/ventasSocketHandlers.ts:22-43 | an update for a deleted id cannot bring it back |
| VentasSocket.Handlers | src/services/ventasSocketHandlers.ts:129-134 | one registration adds six listeners, one per event, in order |
| VentasSocket.RegisterThenCleanup | src/services/ventasSocketHandlers.ts:129-146 | register then clean up restores the listener list of other registrations exactly |
| VentasSocket.LedgerState.constructor | src/services/ventasSocketHandlers.ts:11-17 | the state starts with the given rows and counter |
| VentasSocket.LedgerState.OnVentaActualizada | src/services/ventasSocketHandlers.ts:22-32 | the rows become `Actualizada`; the counter is unchanged |
| VentasSocket.LedgerState.OnVentaEliminada | src/services/ventasSocketHandlers.ts:37-43 | the rows become `Eliminada`; the counter is unchanged |
| VentasSocket.LedgerState.OnVentaAnulada | src/services/ventasSocketHandlers.ts:48-58 | the rows become `Anulada`; the counter is unchanged |
| VentasSocket.LedgerState.OnVentaRehabilitada | src/services/ventasSocketHandlers.ts:63-73 | the rows become `Rehabilitada`; the counter is unchanged |
| VentasSocket.LedgerState.OnSolicitudCreada | src/services/ventasSocketHandlers.ts:81-95 | the rows become `Creada`; the counter never changes; an admin reloads the request list |
| VentasSocket.LedgerState.OnSolicitudResuelta | src/services/ventasSocketHandlers.ts:104-123 | the rows become `Resuelta`; the counter rises by `RevisionIncrement`; an admin reloads the request list |
| VentasSocket.Register | src/services/ventasSocketHandlers.ts:129-134 | the six `on` calls append `Handlers` |
| VentasSocket.Cleanup | src/services/ventasSocketHandlers.ts:139-146 | the returned cleanup removes exactly those six listeners |
| VentasTable.RowClass | src/components/crm/VentasTable.tsx:40-62 | ANULADA iff the sale is cancelled, whatever its revision state; otherwise an admin sees blue only for "pendiente"; an employee sees yellow, green or red for "pendiente", "aceptada" or "rechazada", and no colour otherwise |
| VentasTable.EditLabel | src/components/crm/VentasTable.tsx:144-146 | "Actualizar" iff the user is an admin and the row is pending, else "Editar" |
| VentasTable.AccionesOf | src/components/crm/VentasTable.tsx:150-204 | "Anular" iff its handler is given and the row is not cancelled; "Rehabilitar" iff its handler is given and an admin views a cancelled row; delete iff its handler is given and the user is an admin; the "Anulada" badge iff an employee views a cancelled row; never "Anular" together with "Rehabilitar" or the badge |
| VentasTable.ClearedRowIsInert | src/components/crm/VentasTable.tsx:96-109 | once its mark is cleared, an employee's row is uncoloured, not clickable, and a further click does nothing |
| VentasTable.ClassNamesDistinct | src/components/crm/VentasTable.tsx:40-62 | different row colours get different class names |
| VentasTable.CursorMatchesClick | src/components/crm/VentasTable.tsx:96-109 | the hand cursor shows iff a click would clear the mark and the row is not cancelled |
| VentasTable.AnuladaRowsPainted | src/components/crm/VentasTable.tsx:40-44 | after VENTA_ANULADA every matching row is painted as cancelled and offers no "Anular" |
| Libro.VentasFiltradas | src/pages/LibroVentas.tsx:61-68 | `Matches`: exactly the sales that pass every filter not set to "ALL" |
| Libro.FiltradasAll | src/pages/crm/LibroVentas.tsx:386-393 | with every filter on "ALL", nothing is filtered out |
| Libro.FiltradasAppend | src/pages/LibroVentas.tsx:61-68 | filtering distributes over concatenation, so the kept sales stay in order |
| Libro.FiltradasNarrow | src/pages/crm/LibroVentas.tsx:386-393 | applying the insurer filter after the others equals applying all three at once |
| Libro.RamosOf | src/pages/LibroVentas.tsx:85 | the line of business of each sale, in order |
| Libro.AseguradorasOf | src/pages/LibroVentas.tsx:83 | the insurer of each sale, in order |
| Libro.PorRamo | src/pages/LibroVentas.tsx:76-81 | the record produced by the reduction is well formed |
| Libro.Anterior | src/pages/LibroVentas.tsx:78 | `acc[ramo] \|\| 0`: the running value of the line, or 0 |
| Libro.AddVenta | src/pages/LibroVentas.tsx:78 | one reduction step keeps the record well formed |
| Libro.PorRamoPrefix | src/pages/LibroVentas.tsx:77-80 | one more sale is one more reduction step |
| Libro.AddVentaTotal | src/pages/LibroVentas.tsx:78 | one step adds the sale's premium to the total over the lines |
| Libro.ProduccionPorRamo | src/pages/crm/LibroVentas.tsx:405-410 | the reduction loop builds exactly `PorRamo` of the filtered sales |
| Libro.PorRamoTotal | src/pages/crm/LibroVentas.tsx:400-410 | `ProduccionTotal`: the per-line values add up to `produccionTotal` |
| Libro.PorRamoKeys | src/pages/crm/LibroVentas.tsx:405-410 | the keys are the lines of business of the sales, each once, in order of first appearance |
| Libro.PorRamoValue | src/pages/LibroVentas.tsx:76-81 | each line's value is the sum of the premiums of that line's sales |
| Libro.PorRamoAbsent | src/pages/LibroVentas.tsx:76-81 | a line with no value has no sales |
| Libro.NombresOf | src/pages/LibroVentas.tsx:84 | the non-empty creator names, each from some sale, and every sale's non-empty creator among them |
| Libro.OpcionesOf | src/pages/LibroVentas.tsx:83-85 | the three option lists are duplicate-free; every sale's insurer, line and non-empty creator is offered, and every offered value comes from some sale; no user option is empty |
| Libro.OpcionAseguradoraNoVacia | src/pages/LibroVentas.tsx:83 | any offered insurer, with the other filters on "ALL", leaves at least one sale |
| Libro.OpcionUsuarioNoVacia | src/pages/LibroVentas.tsx:84 | any offered user, with the other filters on "ALL", leaves at least one sale |
| Libro.MesNombre | src/pages/LibroVentas.tsx:419-426 | `meses[m-1]` for m in 1..12, undefined otherwise |
| Libro.MesNombreInjective | src/pages/LibroVentas.tsx:419-426 | different months have different names |
| LibroCrm.Busqueda | src/pages/crm/LibroVentas.tsx:125-146 | `SearchActive`: no search result (null) iff the trimmed query has fewer than two characters; with an active query, a failed search or a null body gives an empty list (`res.data || []`) and a body gives its results |
| LibroCrm.VentasBase | src/pages/crm/LibroVentas.tsx:373-378 | the search results when there are any, else the month list |
| LibroCrm.ShortQueryShowsMonth | src/pages/crm/LibroVentas.tsx:91-129 | a query of fewer than two significant characters always shows the month list |
| LibroCrm.SolicitudesOrdenadas | src/pages/crm/LibroVentas.tsx:114-120 | a copy with the same requests, as a multiset |
| LibroCrm.SolicitudesOrdenadasSorted | src/pages/crm/LibroVentas.tsx:114-120 | the copy is in ascending order of creation time |
| LibroCrm.SolicitudesOrdenadasStable | src/pages/crm/LibroVentas.tsx:114-120 | a list already in creation order is shown as it is |
| LibroCrm.SolicitudesOrdenadasKeepTies | src/pages/crm/LibroVentas.tsx:114-120 | requests created at the same time keep the order the server sent them in |
| LibroCrm.AdminUnlimited | src/pages/crm/LibroVentas.tsx:1062-1069 | `PrevDisabled` and `NextDisabled`: an admin's arrows are never disabled |
| LibroCrm.EmployeeStaysInRange | src/pages/crm/LibroVentas.tsx:102-104 | an employee inside the current-month-to-month-after-next range stays inside it whichever enabled arrow they press |
| LibroCrm.EmployeeRangeEnds | src/pages/crm/LibroVentas.tsx:1065-1069 | at the current month "previous" is disabled; two months on, "next" is disabled |
| LibroCrm.BoundedDecrement | src/pages/crm/LibroVentas.tsx:701 | `max(n-1, 0)`: one less, never below 0 |
| LibroCrm.ApplySaved | src/pages/crm/LibroVentas.tsx:885-903 | same length; only rows with the patch id change, and only their revision state; an absent field keeps the old value |
| LibroCrm.ApplySavedNoField | src/pages/crm/LibroVentas.tsx:895-898 | a patch without a revision state changes nothing |
| LibroCrm.Find | src/pages/crm/LibroVentas.tsx:688 | a row with the id when one exists |
| LibroCrm.LibroPage.constructor | src/pages/crm/LibroVentas.tsx:113-180 | the page starts with the given rows and counter, with nothing awaiting deletion |
| LibroCrm.LibroPage.OnClearRevision | src/pages/crm/LibroVentas.tsx:692-702 | on success, clears the mark of that id only and decrements the counter, never below 0; on failure, nothing changes |
| LibroCrm.LibroPage.OnSaved | src/pages/crm/LibroVentas.tsx:885-906 | the rows become `ApplySaved`; the counter is unchanged |
| LibroCrm.LibroPage.OnDelete | src/pages/crm/LibroVentas.tsx:687-690 | the loaded sale with that id, if any, awaits confirmation |
| LibroCrm.LibroPage.ConfirmDelete | src/pages/crm/LibroVentas.tsx:918-936 | success removes the id from the list; a 403 leaves the list, drops the pending sale and opens the info modal; other failures leave the list |
| Sorting.SortBy | src/pages/crm/LibroVentas.tsx:115-119 | the same elements, as a multiset, and the same length |
| Sorting.SortBySorted | src/components/Laboral/HistorialHorario.tsx:323-325 | for a total preorder, the result is sorted |
| Sorting.SortByOfSorted | src/pages/crm/LibroVentas.tsx:115-119 | an already sorted list is returned unchanged |
| Sorting.SortByStable | src/pages/crm/LibroVentas.tsx:115-119 | for a transitive comparator, the elements tied with any value keep their relative order (a stable sort) |
| VentaForm.Prefix10 | src/components/ventas/VentaForm.tsx:64 | `substring(0, 10)`: a prefix of at most ten characters |
| VentaForm.ToInputDate | src/components/ventas/VentaForm.tsx:46-68 | a missing or empty value gives ""; "yyyy-mm-dd" is kept; without a slash, a value with "T" is cut to ten characters and anything else gives "" |
| VentaForm.NotYmd | src/components/ventas/VentaForm.tsx:55-67 | the branches after the "yyyy-mm-dd" test: the ISO cut or "" when there is no slash |
| VentaForm.SlashNotYmd | src/components/ventas/VentaForm.tsx:50-55 | a value containing a slash never matches "yyyy-mm-dd", so the slash branch is reached |
| VentaForm.ToInputDateSlash | src/components/ventas/VentaForm.tsx:55-59 | "dd/mm/yyyy" becomes yyyy, month and day padded to two places, joined by dashes |
| VentaForm.NotYmdSlash | src/components/ventas/VentaForm.tsx:55-59 | the same reordering, taken from the slash branch itself |
| VentaForm.YmdOfParts | src/components/ventas/VentaForm.tsx:50 | four, two and two digits joined by dashes match the pattern |
| VentaForm.PadDigits | src/components/ventas/VentaForm.tsx:58 | one or two digits padded with "0" are exactly two digits |
| VentaForm.ToInputDateIdempotentOnSlash | src/components/ventas/VentaForm.tsx:46-68 | a day/month/four-digit-year date converts to "yyyy-mm-dd", which a second conversion keeps |
| VentaForm.ToInputDateShortYear | src/components/ventas/VentaForm.tsx:55-67 | with a two-digit year the result has eight characters and a second conversion gives "" |
| VentaForm.DashedDigits | src/components/ventas/VentaForm.tsx:55-63 | a dashed string of digits has neither slash nor "T" |
| VentaForm.ToInputDateOfFormatted | src/components/ventas/VentaForm.tsx:188 | a stored date with a four-digit year is shown in the date input as it is |
| VentaForm.NatToStringLength4 | src/components/ventas/VentaForm.tsx:50 | a four-digit year prints as four digits |
| VentaForm.NormalizeValue | src/components/ventas/VentaForm.tsx:143-155 | null or undefined gives ""; the effect date is cut to ten characters; the premium becomes a number (or NaN); every other field is trimmed |
| VentaForm.IsChanged | src/components/ventas/VentaForm.tsx:160-167 | never a change without original data |
| VentaForm.IsChangedText | src/components/ventas/VentaForm.tsx:154-166 | a text field is changed iff the trimmed values differ (both directions) |
| VentaForm.WhitespaceEditIsNoChange | src/components/ventas/VentaForm.tsx:154-166 | adding white space around the original value is not a change |
| VentaForm.PrimaPrefillUnchanged | src/components/ventas/VentaForm.tsx:199 | the premium as pre-filled by `toString()` compares equal to the stored number |
| VentaForm.NaNAlwaysChanged | src/components/ventas/VentaForm.tsx:150-166 | a premium that is not a number is "changed" even against itself, as NaN !== NaN |
| VentaForm.PrefillValue | src/components/ventas/VentaForm.tsx:184-204 | the creator field is left empty; a field the sale lacks is ""; any other text field other than the date takes the sale's text |
| VentaForm.PrefilledForm | src/components/ventas/VentaForm.tsx:184-204 | every field is present and holds its `PrefillValue` |
| VentaForm.PrefillUnchanged | src/components/ventas/VentaForm.tsx:184-204 | a text field as pre-filled, compared against the same sale, is not flagged as changed |
| VentaForm.VentaFormState.constructor | src/components/ventas/VentaForm.tsx:123-139 | every field starts empty, the label too |
| VentaForm.VentaFormState.Prefill | src/components/ventas/VentaForm.tsx:184-204 | the effect on the sale being edited sets the form to `PrefilledForm` of it and the creator label to its user name or "" |
| VentaForm.VentaFormState.HandleChange | src/components/ventas/VentaForm.tsx:219-225 | exactly the named field takes the new value |
| VentaForm.VentaFormState.HandleSubmit | src/components/ventas/VentaForm.tsx:227-250 | nothing without a handler; a trimmed fiscal ID of one to eight characters blocks; otherwise the form without its label is sent, the user only when non-empty |
| VentaForm.FiscalIdCases | src/components/ventas/VentaForm.tsx:235-239 | `FiscalIdInvalid`: an empty or nine-character fiscal ID never blocks; "12345678" does |
| AnularModal.ValidationError | src/components/ventas/AnularVentaModal.tsx:90-102 | no error iff the trimmed reason is non-empty and a dated cancellation has a date; the reason is checked first |
| AnularModal.PayloadOf | src/components/ventas/AnularVentaModal.tsx:114-120 | the date is sent iff the type is "FECHA"; the reason is sent trimmed; the type and Verti flag as chosen |
| AnularModal.ValidPayloadComplete | src/components/ventas/AnularVentaModal.tsx:109-120 | a body sent after validation has a non-empty, already-trimmed reason and never an empty date |
| AnularModal.FlagsExclusive | src/components/ventas/AnularVentaModal.tsx:70-73 | `EsRevision`, `HaySolicitudPendiente` and `SendDisabled`: a pending request is never a review and always disables the send button; an enabled button means no pending request |
| AnularModal.Enviar | src/components/ventas/AnularVentaModal.tsx:107-138 | nothing is posted iff validation fails, which shows its error; otherwise the payload is posted and the dialog confirms and closes iff the call succeeds or answers 403; any other failure shows the server's message or "Error de conexión" |
| AnularModal.ForbiddenLikeOk | src/components/ventas/AnularVentaModal.tsx:124-132 | a 403 ends exactly like a success |
| AnularModal.AnularVentaModal.constructor | src/components/ventas/AnularVentaModal.tsx:59-65 | "VENCIMIENTO", no date, no reason, Verti off, not loading, no error |
| AnularModal.AnularVentaModal.LoadPayload | src/components/ventas/AnularVentaModal.tsx:78-85 | without a payload nothing changes; otherwise each field takes the payload's value or its default |
| AnularModal.AnularVentaModal.ChooseVencimiento | src/components/ventas/AnularVentaModal.tsx:195-198 | the type becomes "VENCIMIENTO" and the date is cleared; nothing else changes |
| AnularModal.AnularVentaModal.ChooseFecha | src/components/ventas/AnularVentaModal.tsx:210 | the type becomes "FECHA"; the date typed is kept |
| AnularModal.AnularVentaModal.EnviarAnulacion | src/components/ventas/AnularVentaModal.tsx:107-138 | the body posted, the error, the confirm and close calls are those of `Enviar`; the form is kept |
| AnularModal.VencimientoSendsNoDate | src/components/ventas/AnularVentaModal.tsx:195-198 | after "Vencimiento", a valid reason is posted with no date |
| RehabilitarModal.InitialError | src/components/ventas/RehabilitarVentaModal.tsx:62-75 | no error for a local request; for a real one, no error iff the sale is ANULADA |
| RehabilitarModal.ApproveCall | src/components/ventas/RehabilitarVentaModal.tsx:99-117 | a local request clears the sale's state with a PUT; a real one posts `/aprobar` for the request |
| RehabilitarModal.FailureMessage | src/components/ventas/RehabilitarVentaModal.tsx:127-130 | the server's message when it has one, else the fallback; never empty |
| RehabilitarModal.RehabilitarVentaModal.constructor | src/components/ventas/RehabilitarVentaModal.tsx:44-75 | opening runs the validation: the error is `InitialError`; no call yet |
| RehabilitarModal.AbrirLocal | src/pages/crm/LibroVentas.tsx:670-682 | the ledger's "Rehabilitar" opens the dialog on a local request whose id is the sale's own id, with no error, no call and nothing confirmed |
| RehabilitarModal.RehabilitarVentaModal.Aprobar | src/components/ventas/RehabilitarVentaModal.tsx:87-134 | exactly one call; success confirms and closes; failure shows the message and stays open |
| RehabilitarModal.RehabilitarVentaModal.Rechazar | src/components/ventas/RehabilitarVentaModal.tsx:137-152 | one `/rechazar` call; success closes without confirming; failure shows the message |
| RehabilitarModal.ApproveInitiallyEnabled | src/components/ventas/RehabilitarVentaModal.tsx:254 | `ApproveDisabled`: the approve button starts enabled iff the request is local or the sale is ANULADA |
| RehabilitarModal.FailureDisablesApprove | src/components/ventas/RehabilitarVentaModal.tsx:127-130 | after a failed call the approve button is disabled |
| NuevaVenta.With | src/pages/crm/NuevaVenta.tsx:87 | one field replaced, every other kept |
| NuevaVenta.PayloadOf | src/pages/crm/NuevaVenta.tsx:95-116 | the text fields are copied; the premium is `Number` of its text; the user is sent iff an admin filled it in; the creation date iff an admin, on a historical sale, filled it in |
| NuevaVenta.EmployeePayloadPlain | src/pages/crm/NuevaVenta.tsx:109-116 | an employee never sends a user or a creation date |
| NuevaVenta.PayloadPrima | src/pages/crm/NuevaVenta.tsx:102 | an amount typed with at most two decimals reaches the server as that amount; an empty premium as 0 |
| NuevaVenta.NuevaVentaPage.constructor | src/pages/crm/NuevaVenta.tsx:39-60 | empty form, switch off, no error, no success modal, nothing posted |
| NuevaVenta.NuevaVentaPage.HandleChange | src/pages/crm/NuevaVenta.tsx:82-88 | the form becomes `With` the new value; nothing else changes |
| NuevaVenta.NuevaVentaPage.SetHistorica | src/pages/crm/NuevaVenta.tsx:60-65 | the switch takes the value; turning it off clears the creation date only |
| NuevaVenta.NuevaVentaPage.HandleSubmit | src/pages/crm/NuevaVenta.tsx:90-127 | posts `PayloadOf` of the form; success opens the success modal, which disables the submit button; failure shows the server's message or the fallback; a disabled button stays disabled |
| NuevaVenta.NuevaVentaPage.CerrarExito | src/pages/crm/NuevaVenta.tsx:406-411 | closing the success modal re-enables the submit button and navigates to the sales ledger; nothing else changes |
| NuevaVenta.SwitchOffDropsCreatedAt | src/pages/crm/NuevaVenta.tsx:61-65 | after the switch is turned off no creation date is sent |
| JsNumber.Number | src/pages/crm/NuevaVenta.tsx:102 | `Number(s)` in hundredths: a blank string is 0 |
| JsNumber.NumberOfCentsString | src/components/ventas/VentaForm.tsx:151-199 | what `toString()` writes of an amount, `Number` reads back |
| JsNumber.NumberOfIntString | src/components/ventas/VentaForm.tsx:151 | an integer printed reads back as itself |
| JsNumber.NumberOfDigits | src/pages/crm/NuevaVenta.tsx:102 | a string of digits reads back as its decimal value |
| Strings.Trim | src/components/ventas/VentaForm.tsx:154 | `trim()`: the result neither starts nor ends with white space and is no longer than the input |
| Strings.TrimIsSlice | src/components/ventas/VentaForm.tsx:154 | the trimmed string is a contiguous slice of the input with only white space cut before and after it |
| Strings.TrimIdempotent | src/components/ventas/AnularVentaModal.tsx:118 | trimming an already trimmed reason changes nothing |
| Strings.TrimEmptyIff | src/components/ventas/AnularVentaModal.tsx:91 | a string trims to "" iff it is all white space |
| Strings.Split | src/components/ventas/VentaForm.tsx:56 | `split("/")`: at least one part, and no part contains the separator |
| Strings.JoinSplit | src/components/ventas/VentaForm.tsx:56 | joining the parts again gives back the string |
| Strings.SplitJoin | src/components/ventas/VentaForm.tsx:56 | splitting joined separator-free parts gives back the parts |
| Strings.PadStart2 | src/components/ventas/VentaForm.tsx:58 | `padStart(2, "0")`: strings of two or more characters are kept; shorter ones get leading zeros up to two characters |
| Seqs.Dedup | src/pages/LibroVentas.tsx:83-85 | `Array.from(new Set(...))`: each value once, all of them, nothing else |
| Seqs.DedupOrder | src/pages/LibroVentas.tsx:83-85 | values keep the order of their first occurrence |
| Base.MessageOr | src/pages/crm/NuevaVenta.tsx:122-125 | the server's message when non-empty, else the fallback |

## Left out

- Rendering, styling, navigation menus, skeletons, charts (floating-point projections) and KPI cards are not modelled; the model keeps only the values the components compute.
- HTTP calls are not modelled: each call is an abstract outcome (success, an HTTP error with its status and message, or no answer). What the server does is outside the front end.
- Timers are not modelled: the 300 ms search debounce, the one-second clock tick, the greeting timeout, the order in which promises settle, and answers arriving after unmount. Each handler is modelled as running to completion on the answer it is given.
- `new Date()`, `Date.now()` and the current hour are parameters. Locale and time-zone behaviour is not modelled: `toLocaleDateString`, `toLocaleTimeString`, and `new Date(string)` parsing of ISO strings with offsets. Every date is read in the zone it was written in.
- The stored `hora_inicio_jornada` is held as milliseconds since the epoch. Its ISO-string form is not modelled.
- `JSON.parse` of the stored user is a parameter (`None` when it throws). A stored `"null"` user, which parses without throwing, is not distinguished from other parses.
- The phone/tablet test on the user agent is a boolean parameter.
- The socket connection itself (connect, reconnect, the singleton) is not modelled, nor is the axios client with its interceptors. Only the listener table is, and whether `getSocket()` hands out a socket or `null` (`App.HaySocket`).
- The route table matches paths exactly. React Router's case-insensitive matching and trailing-slash handling are not modelled.
- Floating-point premium sums are not modelled: premiums are integer cents, and `Number(...)` reads at most two decimals (anything else is NaN). Premiums with more decimals are outside the model.
- Excel and PDF export (`exportExcel`, `exportPDF` in both ledger pages) are file generation with layout loops, and are not modelled.
- VentaForm `formatFecha` is not modelled: it formats the "Antes:" hint with `new Date` and `toLocaleDateString("es-ES")`.
- The loading of assignable users and of the request list (pickers only) is not modelled, in `NuevaVenta`, `VentaForm` and the ledger page.
- The review buttons the cancellation dialog shows for a request (approve/reject a cancellation request) are not modelled; the send path, flags and prefill are.
- The fichajes save of the schedule screen (src/pages/crm/horario/HorarioCRM.tsx:1107-1117) and `eliminarMarca` (297-309) edit a list of clock events through the server and are not modelled.
- The calendar's `getMonthLabel` (a locale month name) and `getDiasDelMes` (the cells of the grid) are not modelled. The weekend test reads the date as a calendar day (`CalendarioLaboral.EsFinDeSemana`) instead of going through `new Date(string)`.
- Contracted weekly hours in the history are whole hours. Fractional contracts (a float times 60) are not modelled.
- The history's week buckets are keyed by the Monday's day number rather than by its "YYYY-MM-DD" text. The two are in one-to-one correspondence (`Dates.FormatDateInjective`).
- Durations.MinToHorasRoundTrip: the round trip and injectivity are stated for non-negative counts only. For negative counts, JavaScript's sign-keeping `%` is modelled and its value fixed (`Durations.JsRem`, `Durations.JsRemQuot`), but the label is not read back.
- Dates.ShiftMonthKeyRoundTrip and LibroCrm.EmployeeStaysInRange require a year of at least 100. `new Date(y, m)` maps years 0..99 to 1900..1999 (`Dates.ShiftMonthKeyTwoDigitYear`), so the month round trip fails there.
- `SOLICITUD_CREADA`'s and `SOLICITUD_RESUELTA`'s reload of the admin's request list is recorded as a request to reload; the list that comes back is not modelled.
- Console logging and `alert` are not modelled; a blocked submit is an outcome value.
- The schedule screen's modal mode (`modoModal`, src/pages/crm/horario/HorarioCRM.tsx:71, 817, 1024) is not modelled: an open dialog is `diaActivo` being set, whichever of its panels shows.
- HorarioCrm.TurnoObjetivo: the schedule screen's weekly contract (`horasContratadasSemana`, a float of hours) is read in hundredths of an hour, so contracts with more decimals are outside the model.

## Findings

| source | as written | input that shows it | evidently intended | confidence | as-written member | corrected member |
|---|---|---|---|---|---|---|
| src/pages/crm/horario/HorarioCRM.tsx:842-866 | the three shift buttons call `marcarDia(diaActivo.estado ?? null, turno)`, so on a day that already has a state they post that state again and the shift is never selected | open a day whose state is VACACIONES and press "Mañana": the VACACIONES body is posted again, with no shift | a shift button only selects the shift, as the "SOLO SELECCIÓN (NO GUARDA)" branch of `marcarDia` says; saving is left to "Guardar" | not executed | HorarioCrm.BotonTurnoOnStateDay | HorarioCrm.BotonTurnoIntended |
