# barber-connect: a Dafny model of the scheduling and tenant core

barber-connect is a multi-tenant barbershop manager: a React front end over a
Firestore document store. Each tenant ("barbearia") is keyed by its taxpayer
number (`contribuinte`) and owns four collections: employees (`funcionarios`),
clients (`clientes`), services (`servicos`) and appointments (`agendamentos`).
This project models the parts of the application that carry rules:

- `BarbeariaService`: the data-access layer. It covers the tenant existence
  check, atomic provisioning of a new tenant with its default employee and
  three default services, partial updates, soft deletion, record creation
  under fresh ids, and the four list queries with their filters and orders.
- `Calendar`: the day view, the per-date appointment counts, the status
  colour and the status label.
- `StorePage`: the dashboard figures. These are today's revenue, the next
  five appointments, per-appointment duration, the active counts and the
  ten-item list.
- `MenuAsideRight`: the side panel's day summary.
- `QuickEditAppointment`: the status-change dialog and the partial update it
  sends.
- `Login`: the login and registration validators, error clearing and the
  submit guards.

The store is an immutable value. A tenant map and per-tenant collection maps
are read and written through `DocStore.Get` and `DocStore.Set`. A write batch
(`DocStore.Commit`) takes effect entirely or not at all. The following are
parameters rather than effects:

- auto-generated document ids, required fresh;
- `serverTimestamp()`, as `now`;
- whether the backend answers a call, as a `Link` that is `Up` or `Down`;
- "now" and "today" in the pages;
- the date-key formatter;
- whether the quick-edit dialog's appointment prop is a different object from the one it last received (React compares effect dependencies by identity), as `mudou`.

Prices are integer cents and dates are integers. Firestore's `orderBy` breaks
ties by document id, so every Firestore query key ends in the id. Sorting is a stable
insertion sort on lexicographic keys (`Ordering.SortBy`).

Three rules one might expect of a booking system are not implemented by the
code, and the model does not add them:

- a legal-transition table for appointment statuses: the quick-edit dialog
  offers every status from every status, and nothing rejects a transition;
- slot-conflict checks when booking: `criarAgendamento` writes the record
  unconditionally (see `BarbeariaService.CriarAgendamentoAcceptsDoubleBooking`);
- a visit-counter increment on completion: the status patch sets only
  `status` and `pago`.

## Model

| member | source | states |
|---|---|---|
| DocStore.Get | src/services/barbeariaService.ts:41-44 | reading a document path yields a record of the kind that path holds, or nothing |
| DocStore.Set | src/services/barbeariaService.ts:389 | after writing a document, reading its path gives the written document and every other path reads as before |
| DocStore.Commit | src/services/barbeariaService.ts:82-136 | a batch commit succeeds exactly when the backend answers; on success every write of the batch is visible and untargeted paths are unchanged, on failure the error is "unavailable" |
| DocStore.BatchEffect | src/services/barbeariaService.ts:82-136 | applying a batch of writes to distinct paths leaves each written document at its path and every other path untouched |
| Queries.DocumentIds | src/services/barbeariaService.ts:245-247 | listing a collection yields each document id exactly once and nothing else |
| Queries.Query | src/services/barbeariaService.ts:244-255 | a filtered, ordered query returns exactly the documents that pass the filter, each once and as stored, sorted by the key |
| BarbeariaService.VerificarContribuinte | src/services/barbeariaService.ts:30-57 | true exactly when the backend answers and a tenant document exists under the key; a failing or unconfigured backend yields false, never an error |
| BarbeariaService.BuscarBarbearia | src/services/barbeariaService.ts:200-220 | a failed read is an error; otherwise the tenant is returned, with its id taken from the key, exactly when its document exists |
| BarbeariaService.CriarBarbearia | src/services/barbeariaService.ts:61-141 | a key reported as taken is refused with "already registered"; otherwise the five documents are committed in one batch, and success means the tenant, the "all employees" employee and the three services exist with the prescribed fields while nothing else changes |
| BarbeariaService.ProvisioningAllOrNothing | src/services/barbeariaService.ts:82-136 | for a new key, afterwards either all five provisioned documents exist or none of them does |
| BarbeariaService.ProvisioningAddsFiveDocuments | src/services/barbeariaService.ts:72-136 | a successful provisioning fills exactly the five previously empty paths and leaves every other path unchanged |
| BarbeariaService.ProvisioningTwiceRefused | src/services/barbeariaService.ts:64-70 | provisioning the same key a second time is refused and leaves the first tenant's documents intact |
| BarbeariaService.FailedLookupReprovisions | src/services/barbeariaService.ts:52-56 | because the existence check swallows failures, a lookup failure lets provisioning overwrite an existing tenant document |
| BarbeariaService.ProvisionedTenantExists | src/services/barbeariaService.ts:30-57 | after a successful provisioning the existence check reports the tenant |
| BarbeariaService.MergeBarbearia | src/services/barbeariaService.ts:229-232 | each field the tenant patch names, including id, key, creator and creation time, takes the patch's value; every other field keeps its stored value; the update time becomes the call's time |
| BarbeariaService.MergeFuncionario | src/services/barbeariaService.ts:171-174 | each field the employee patch names (name, phone, email, specialities, working hours, active flag, id, creation time) takes the patch's value; every other field is kept; the update time becomes the call's time |
| BarbeariaService.AtualizarFuncionario | src/services/barbeariaService.ts:165-180 | the update fails with "not found" exactly when the employee document is missing; otherwise only that record changes, field by field as the patch says |
| BarbeariaService.RemoverFuncionario | src/services/barbeariaService.ts:182-196 | removing an employee keeps the record and sets only `ativo` to false and the update time; it fails exactly when the employee is missing |
| BarbeariaService.AtualizarBarbearia | src/services/barbeariaService.ts:223-237 | the tenant update fails exactly when the tenant is missing; otherwise only the tenant document changes, as the patch says |
| BarbeariaService.AtualizarFuncionarioIdempotent | src/services/barbeariaService.ts:165-180 | applying the same employee patch twice at the same time gives the same store as applying it once |
| BarbeariaService.AdicionarFuncionario | src/services/barbeariaService.ts:143-163 | a new employee is stored under the fresh id, active, with the given data and both timestamps set to now; the id is returned and nothing else changes |
| BarbeariaService.AdicionarCliente | src/services/barbeariaService.ts:289-310 | a new client is stored under the fresh id, active and with zero visits; the id is returned and nothing else changes |
| BarbeariaService.CriarAgendamento | src/services/barbeariaService.ts:374-395 | a new appointment is stored under the fresh id, active, with the given data; the id is returned and nothing else changes |
| BarbeariaService.CriarAgendamentoAcceptsDoubleBooking | src/services/barbeariaService.ts:374-395 | booking the same employee, date and time twice stores both appointments: nothing checks for conflicts |
| BarbeariaService.BuscarFuncionarios | src/services/barbeariaService.ts:241-260 | returns exactly the active employees, each once, with its id from the document key, ordered by name |
| BarbeariaService.BuscarClientes | src/services/barbeariaService.ts:266-287 | returns exactly the active clients, each once, with its id from the document key, ordered by name |
| BarbeariaService.BuscarServicos | src/services/barbeariaService.ts:314-333 | returns exactly the active services, each once, ordered by category and then by name |
| BarbeariaService.BuscarAgendamentos | src/services/barbeariaService.ts:337-372 | with both bounds, returns exactly the appointments dated within them inclusive, otherwise all of them; each once, ordered by date and then start time |
| Calendar.FiltradosIsOneFilter | src/components/ui/Calendar/Calendar.tsx:52-58 | taking the day's appointments and then those of the selected employee selects, in order, exactly what the single "on the day and passes the employee filter" test selects |
| Calendar.DayView | src/components/ui/Calendar/Calendar.tsx:52-63 | the day view holds exactly the selected day's appointments that pass the employee filter, as a permutation of them, ordered by start time |
| Calendar.HorarioOrdenado | src/components/ui/Calendar/Calendar.tsx:60-62 | a list sorted by the start-time key has non-decreasing start times |
| Calendar.DateCounts | src/components/ui/Calendar/Calendar.tsx:66-80 | a date has an entry exactly when some appointment on it passes the filter, and the entry is the number of such appointments |
| Calendar.BadgeIsCount | src/components/ui/Calendar/Calendar.tsx:255 | the badge for any date, with a missing entry read as 0, is the number of that date's appointments passing the filter |
| Calendar.ZeroFilterDayView | src/components/ui/Calendar/Calendar.tsx:56 | the `'0'` selection and no selection give the same day view |
| Calendar.ZeroFilterCounts | src/components/ui/Calendar/Calendar.tsx:74 | the `'0'` selection and no selection give the same per-date counts |
| Calendar.FilteredCountsBounded | src/components/ui/Calendar/Calendar.tsx:66-80 | a per-date count under any employee selection is at most the unfiltered count |
| Calendar.CorStatus | src/components/ui/Calendar/Calendar.tsx:91-100 | each of the five statuses gets its fixed colour and any other string gets the grey fallback |
| Calendar.CorStatusComoEscritoNaoTotal | src/components/ui/Calendar/Calendar.tsx:99 | as written, the status string "constructor" gets an inherited object member instead of the fallback colour |
| Calendar.CorStatusAgreesOffPrototype | src/components/ui/Calendar/Calendar.tsx:91-100 | for every string that is not an inherited object member, the lookup as written agrees with the corrected colour function |
| Calendar.PrimeiroIndice | src/components/ui/Calendar/Calendar.tsx:188 | finds the first occurrence of a character, or the length when there is none |
| Calendar.SubstituiPrimeiro | src/components/ui/Calendar/Calendar.tsx:188 | replaces the first occurrence of a character and keeps every other position |
| Calendar.RotuloStatus | src/components/ui/Calendar/Calendar.tsx:188 | the label has the status's length and is the upper-case status with only its first `_` turned into a space |
| Calendar.RotuloSubstituiSoOPrimeiro | src/components/ui/Calendar/Calendar.tsx:188 | the first underscore of a status becomes a space in its label, and any later underscore stays an underscore |
| StorePage.AgendamentosHoje | src/Pages/store/StorePage.tsx:36 | today's appointments are exactly those dated today, each as often as it occurs in the store, so the list's length is the number of appointments dated today |
| StorePage.Receita | src/Pages/store/StorePage.tsx:41-43 | the revenue is the sum of `precoTotal` over the completed appointments; it is 0 when nothing is completed and non-negative when prices are |
| StorePage.ReceitaSingleton | src/Pages/store/StorePage.tsx:41-43 | one appointment adds its price when it is completed and nothing otherwise |
| StorePage.ReceitaAppend | src/Pages/store/StorePage.tsx:41-43 | the revenue of two lists joined is the sum of their revenues |
| StorePage.FaturamentoHoje | src/Pages/store/StorePage.tsx:36-43 | today's revenue is the sum of `precoTotal` over the appointments that are both dated today and completed |
| StorePage.FaturamentoHojeBounds | src/Pages/store/StorePage.tsx:36-43 | today's revenue is non-negative when prices are, and 0 when no appointment is both dated today and completed |
| StorePage.ProximosAgendamentos | src/Pages/store/StorePage.tsx:45-48 | the upcoming list has min(5, eligible) appointments, each scheduled and not in the past, in non-decreasing date order, and no eligible appointment left out is earlier than one kept; each appointment appears in it at most as often as among the eligible ones |
| StorePage.PrefixSound | src/Pages/store/StorePage.tsx:47-48 | the first five of the date-sorted eligible appointments are all scheduled, not in the past, and taken from the tenant's appointments |
| StorePage.PrefixOrdered | src/Pages/store/StorePage.tsx:47-48 | any prefix of a date-sorted list keeps its appointments in date order |
| StorePage.PrefixKeepsEarliest | src/Pages/store/StorePage.tsx:47-48 | an eligible appointment dated before one of the five kept is itself among the five |
| Ordering.SortByStable | src/Pages/store/StorePage.tsx:44-47 | the sort is stable: for every key, the elements with that key keep their input order, as `Array.prototype.sort` does; with the dashboard's date key, appointments on the same date stay in store order |
| StorePage.Duracao | src/Pages/store/StorePage.tsx:205-214 | the minutes shown for an appointment are the sum of `duracao` over the catalogue services whose id the appointment lists; with non-negative durations they lie between 0 and the catalogue's total |
| StorePage.DuracaoSingleton | src/Pages/store/StorePage.tsx:205-214 | a single catalogue service contributes its duration exactly when its id is listed |
| StorePage.DuracaoAppend | src/Pages/store/StorePage.tsx:205-214 | the minutes over a catalogue split in two are the sum of the minutes over each part |
| StorePage.DuracaoDependsOnIdSet | src/Pages/store/StorePage.tsx:205-207 | the duration depends only on which ids are listed, not on their order or multiplicity |
| StorePage.DuracaoIgnoresRepeats | src/Pages/store/StorePage.tsx:205-207 | listing the same service ids twice does not change the duration |
| StorePage.DuracaoIgnoresUnknownId | src/Pages/store/StorePage.tsx:205-207 | an id absent from the catalogue adds nothing to the duration |
| StorePage.ClientesAtivos | src/Pages/store/StorePage.tsx:38 | the active-client count never exceeds the number of clients and equals it exactly when every client is active |
| StorePage.ServicosAtivos | src/Pages/store/StorePage.tsx:39 | the active-service count never exceeds the number of services and equals it exactly when every service is active |
| StorePage.FuncionariosAtivos | src/Pages/store/StorePage.tsx:37 | the active-employee count never exceeds the number of employees and equals it exactly when every employee is active |
| StorePage.AtivosAreCounted | src/Pages/store/StorePage.tsx:37-39 | each of the three active counts equals the number of active records counted one by one |
| StorePage.ListaAgendamentos | src/Pages/store/StorePage.tsx:414 | the list shows the first min(10, n) appointments in store order |
| MenuAsideRight.TodayAppointments | src/components/ui/MenuAsideRight/MenuAsideRight.tsx:52-55 | the panel's list holds exactly today's appointments that pass the employee filter, each as often as in the store, so its length is their number |
| MenuAsideRight.TodayZeroFilter | src/components/ui/MenuAsideRight/MenuAsideRight.tsx:54 | the `'0'` selection and no selection give the same list |
| MenuAsideRight.TodayRevenue | src/components/ui/MenuAsideRight/MenuAsideRight.tsx:57-59 | the panel's revenue is the sum of `precoTotal` over the appointments dated today, passing the employee filter and completed |
| MenuAsideRight.TodayRevenueBounds | src/components/ui/MenuAsideRight/MenuAsideRight.tsx:57-59 | the panel's revenue is non-negative when prices are, and 0 when nothing is completed |
| MenuAsideRight.TodayRevenueMatchesDashboard | src/components/ui/MenuAsideRight/MenuAsideRight.tsx:52-59 | with no employee selected, and when the panel's and the dashboard's notions of today agree on the appointments' dates, the panel's revenue equals the dashboard's |
| MenuAsideRight.NextAppointment | src/components/ui/MenuAsideRight/MenuAsideRight.tsx:61-69 | there is a next appointment exactly when some scheduled, not-past appointment passes the filter, and it is one with the earliest date |
| MenuAsideRight.HeadIsEarliest | src/components/ui/MenuAsideRight/MenuAsideRight.tsx:67-69 | the first of the date-sorted eligible appointments is eligible and no eligible appointment is earlier |
| MenuAsideRight.NextIsFirstUpcoming | src/components/ui/MenuAsideRight/MenuAsideRight.tsx:61-69 | with no employee selected, the next appointment is the head of the dashboard's upcoming list, or nothing when that list is empty |
| MenuAsideRight.ActiveClientsCount | src/components/ui/MenuAsideRight/MenuAsideRight.tsx:72 | the panel's active-client count equals the dashboard's |
| MenuAsideRight.DisplayName | src/components/ui/MenuAsideRight/MenuAsideRight.tsx:75 | the shop's name when the tenant is loaded and the name is non-empty, otherwise "Barbearia"; never empty |
| QuickEditAppointment.StatusPatch | src/components/ui/QuickEditAppointment/QuickEditAppointment.tsx:44-47 | the patch always sets the chosen status, and carries `pago: true` exactly when that status is `concluido` |
| QuickEditAppointment.StatusPatchEffect | src/components/ui/QuickEditAppointment/QuickEditAppointment.tsx:44-47 | applying the patch sets the status, makes the appointment paid exactly when it was paid or is now completed, and changes no other field |
| QuickEditAppointment.OpcoesCoverStatuses | src/components/ui/QuickEditAppointment/QuickEditAppointment.tsx:25-31 | the radio list offers each of the five statuses exactly once, each in the calendar's colour for it |
| QuickEditAppointment.Abrir | src/components/ui/QuickEditAppointment/QuickEditAppointment.tsx:33-37 | receiving the appointment prop resets the chosen status to the appointment's status only when the prop is a different object from the last one received; re-showing the same object, or a missing appointment, leaves the choice as it was |
| QuickEditAppointment.Escolher | src/components/ui/QuickEditAppointment/QuickEditAppointment.tsx:107-130 | any option can be chosen whatever the current status, and the choice is one of the five statuses |
| QuickEditAppointment.HandleUpdateStatus | src/components/ui/QuickEditAppointment/QuickEditAppointment.tsx:39-47 | nothing is sent without an appointment; otherwise the appointment's id and the status patch are sent |
| QuickEditAppointment.Submeter | src/components/ui/QuickEditAppointment/QuickEditAppointment.tsx:39-54 | pressing submit sends an update exactly when an appointment is shown, no update is in flight and the chosen status differs from the current one; the update is the shown appointment's id with the status patch for the chosen status, and the dialog is then marked as updating |
| QuickEditAppointment.Concluir | src/components/ui/QuickEditAppointment/QuickEditAppointment.tsx:51-53 | after an update settles the dialog is no longer updating and keeps its appointment and choice |
| QuickEditAppointment.OpenedIsNoOp | src/components/ui/QuickEditAppointment/QuickEditAppointment.tsx:33-37 | right after a newly received appointment object is shown, submitting sends nothing |
| QuickEditAppointment.ReopenKeepsChoice | src/Pages/store/StorePage.tsx:469-474 | choosing another status, pressing Cancelar (which only hides the dialog and keeps the page's selection) and showing the same appointment again keeps the earlier choice, and submitting then sends that choice's patch |
| QuickEditAppointment.NoDoubleSubmit | src/components/ui/QuickEditAppointment/QuickEditAppointment.tsx:149 | a second press while an update is in flight sends nothing |
| QuickEditAppointment.EveryTransitionIssued | src/components/ui/QuickEditAppointment/QuickEditAppointment.tsx:107-130 | from any newly received appointment, choosing any different status and submitting sends exactly that status's patch |
| Login.Trim | src/Pages/Login/Login.tsx:117 | the trimmed string is a slice of the input that starts and ends with a non-space character, with only white space cut off around it |
| Login.BlankIffAllSpace | src/Pages/Login/Login.tsx:117 | a string trims to empty exactly when it is all white space |
| Login.TestEmailMatchesPattern | src/Pages/Login/Login.tsx:119 | the local email test accepts exactly the strings in which `\S+@\S+\.\S+` matches somewhere |
| Login.ErroEmail | src/Pages/Login/Login.tsx:116-121 | a blank email is "required", a non-blank one the pattern rejects is "invalid format", and otherwise there is no error |
| Login.ErroSenha | src/Pages/Login/Login.tsx:123-128 | a blank password is "required", a non-blank one shorter than six is "too short", and otherwise there is no error |
| Login.ValidateForm | src/Pages/Login/Login.tsx:113-132 | the login form is valid exactly when the email is non-blank and matches the pattern and the password is non-blank with at least six characters; only the email and password errors are set |
| Login.BlankPasswordIsMissing | src/Pages/Login/Login.tsx:124-125 | a password of white space alone is reported missing, whatever its length |
| Login.LengthCountsSurroundingSpace | src/Pages/Login/Login.tsx:126 | the length rule counts the white space around the password: six characters starting with a space pass though the trimmed form is shorter |
| Login.ValidateRegisterForm | src/Pages/Login/Login.tsx:135-160 | registration adds a required name and a mismatch error exactly when the two passwords differ; valid exactly when no error is set |
| Login.RegisterValidImpliesLoginValid | src/Pages/Login/Login.tsx:135-160 | a valid registration passes the login validator with the same email and password |
| Login.HandleChange | src/Pages/Login/Login.tsx:76-94 | the edited field takes the new value and loses its error, the other field and its error are untouched, and the authentication error is cleared |
| Login.HandleSubmit | src/Pages/Login/Login.tsx:163-189 | sign-in is requested, with the trimmed email and the password as typed, exactly when the form is valid and a tenant key is known; otherwise the validation errors or the "tenant not defined" error are shown |
| Login.SubmitOnlyWithValidCredentials | src/Pages/Login/Login.tsx:169-181 | a sign-in request never carries a blank or malformed email or a short password |
| Login.HandleRegisterChange | src/Pages/Login/Login.tsx:97-110 | the edited registration field takes the new value and loses its error; nothing else changes |
| Login.HandleRegisterSubmit | src/Pages/Login/Login.tsx:192-211 | sign-up is requested, with the trimmed email, the password and the name, exactly when the registration is valid, and the errors are then cleared |

## Left out

- Timestamp conversion (`Timestamp.fromDate`, `toDate()`) and its `|| new Date()` fallbacks: dates are plain integers and a stored date always exists.
- Logging (`console.log`, `console.error`): no effect on results.
- Concurrency: each operation is one atomic step on the store. Interleaved clients, and the race between the existence check and the batch, are not modelled.
- Backend failures of the update, create and list operations: only the existence check, the tenant read and the batch commit take a `Link`. Elsewhere a failure is simply rethrown, so there is no branch to model.
- JavaScript number arithmetic and `toFixed(2)`: prices are integer cents and durations integer minutes.
- `dayjs`, `formatDate`, `isToday`, `isSameDay` and `generateDate`: date handling is given as function parameters (a "same day" predicate, a date-key function). Their code is not part of this model.
- StorePage.AgendamentosHoje: the store context's `getAgendamentosByDate` is assumed to keep, in store order, each appointment of the context's list whose date passes a same-day test, given as a predicate. Its code is not part of this model. Calendar.Filtrados, Calendar.DayView and Calendar.FiltradosIsOneFilter rest on the same assumption.
- StorePage.FuncionariosAtivos: the store context's `getFuncionariosAtivos` is assumed to return, in store order, the employees of the context's list whose `ativo` is true. Its code is not part of this model, and StorePage.AtivosAreCounted rests on the same assumption.
- QuickEditAppointment.StatusPatchEffect: the store context's `updateAgendamento`, reached through `onUpdate`, is taken to be a plain merge of the patch into the appointment. Its code is not part of this model, and any timestamp it may set (as every update in the service sets `atualizadoEm`) is not modelled.
- Calendar.RotuloStatus: `toUpperCase` is modelled on ASCII letters only. Statuses are ASCII, but other characters keep their case in the model.
- Login.ValidateForm: lengths count Unicode code points, not UTF-16 code units, so a password with characters outside the Basic Multilingual Plane can be judged differently.
- Login.ErroSenha: the six-character minimum is checked on code points, for the same reason as Login.ValidateForm.
- BarbeariaService.BuscarFuncionarios: `orderBy` on strings is modelled as code-point order of the whole string. Firestore compares UTF-8 bytes, which gives the same order for well-formed strings.
- BarbeariaService.MergeBarbearia: a patch's `atualizadoEm` has no field, because the update writes its own timestamp after spreading the patch, so the patch's value never survives. The same holds for BarbeariaService.MergeFuncionario.
- BarbeariaService.CriarBarbearia: tenant keys are taken to be valid Firestore document ids. An empty key, or one containing `/`, makes `doc(db, 'barbearias', key)` throw or address a different document; the model instead stores the tenant under the key as given. The same assumption covers every other operation that takes a tenant key or a document id.
- Calendar.DayView: `localeCompare` on `horarioInicio` is modelled as code-point order (`Ordering.StrLess`). For zero-padded "HH:MM" times the two orders agree; for arbitrary strings a locale's collation can differ.
- MenuAsideRight.TodayRevenueMatchesDashboard: the panel's `isToday` and the dashboard's date-key lookup for `new Date()` are two parameters, and the lemma assumes they agree on the appointments' dates. Their code is not part of this model, so the model does not show that they agree.
- BarbeariaService.CriarAgendamento: `horarioFim` and `precoTotal` are taken as given. Nothing in the code derives them from the services.
- Optional string fields that may be absent in the source (`telefone`, `email`, `descricao`, `observacoes`) are modelled as strings, with `""` for absent.
- The redirects in Login (`useEffect` navigation), the register modal's visibility and loading flags, the login button's `disabled={isSubmitting || authLoading}` guard (Login.HandleSubmit models the submit handler itself, not whether the button can be pressed), and the rest of the page markup: navigation and presentation only.
- The rest of the application (`App`, `Header`, `Logout`, `ErrorBoundary`, `Schedule`, `ProtectedRoute`, `Register`, and the context providers): outside the modelled core.
- An appointment status-transition table, slot-conflict checks when booking and a visit counter on completion: the code implements none of them (see above).

## Findings

| source | as written | input that shows it | evidently intended | confidence | as-written member | corrected member |
|---|---|---|---|---|---|---|
| src/components/ui/Calendar/Calendar.tsx:99 | `colors[status] \|\| '#gray'` looks the status up through the object's prototype chain | status `"constructor"` yields `Object`, a function, which is truthy, so it is returned as the colour | any status outside the five gets `'#gray'` | not executed; follows from JavaScript property lookup | Calendar.CorStatusComoEscritoNaoTotal | Calendar.CorStatus |
