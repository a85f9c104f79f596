# iLoccar rental dashboards — a Dafny model

iLoccar is a vehicle-rental web application with three dashboards: customer,
staff and administrator. A hosted backend stores the data. The application's
own logic is a set of small rules inside the page components and one session
helper. This project models those rules and proves what they guarantee:

- **Staff page** (`Staff`): the fleet figures, and the vehicle editor as a
  class. The editor's fields are the page state (vehicle list, edit form,
  vehicle being edited, dialog flag), and its handlers are methods. It
  covers add/edit with validation, ids assigned as the decimal string of
  the new length, and a duplicate-free characteristics list.
- **Customer page** (`Customer`): the stay price (whole days, end
  exclusive, times the daily rate) and the `'ativa'` → `'confirmada'`
  status mapping. It also covers the conjunctive category/price filter and
  the booking dialog, whose guard either does nothing or inserts and resets.
- **Administrator page** (`Admin`): role, status and reservation counts,
  revenue, an average daily rate that is 0 on an empty fleet, and the two
  role mappers.
- **Search widget** (`Search`): the optional-filter record edited one key
  at a time, the input normalisations, search and clear.
- **Session helper** (`Auth`): one stored-user slot, `logout`,
  `isAuthenticated` and `hasRole` with its `'admin'` override.

Shared entities are in `Domain`. `Tally` holds the counts and sums that both
the staff and the administrator pages use. Dates are integer day numbers.
Rates and amounts are `real`.

The code inserts reservations unconditionally. It has no overlap check, no
cancellation and no status transitions, so the model has none either.

## Model

| member | source | states |
|---|---|---|
| `Tally.CountVehicles` | src/pages/FuncionarioDashboard.tsx:37-39 | a status count is at most the fleet size; it is 0 iff no vehicle has that status and the fleet size iff all have it |
| `Tally.CountIsMultiplicity` | src/pages/FuncionarioDashboard.tsx:37-39 | a status count equals that status's multiplicity in the fleet's statuses |
| `Tally.StatusCountsPartition` | src/pages/FuncionarioDashboard.tsx:35-39 | available + rented + maintenance = total vehicles |
| `Tally.CountVehiclesAppend` | src/pages/FuncionarioDashboard.tsx:37-39 | status counts add over concatenated fleets |
| `Tally.CountReservations` | src/pages/FuncionarioDashboard.tsx:40 | counting one reservation status gives at most the list length, and 0 iff no reservation has it |
| `Tally.ReservationCountIsMultiplicity` | src/pages/FuncionarioDashboard.tsx:40 | a reservation count equals that status's multiplicity among the reservations' statuses |
| `Tally.CountRole` | src/pages/AdminDashboard.tsx:18-19 | a role count is at most the number of users, and 0 iff no user has that role |
| `Tally.RoleCountIsMultiplicity` | src/pages/AdminDashboard.tsx:18-19 | a role count equals that role's multiplicity among the users' roles |
| `Tally.SumAmounts` | src/pages/AdminDashboard.tsx:25 | the revenue sum is non-negative when every amount is |
| `Tally.SumAmountsAppend` | src/pages/AdminDashboard.tsx:25 | revenue adds over concatenated reservation lists |
| `Tally.SumRates` | src/pages/AdminDashboard.tsx:26 | the sum of daily rates is non-negative when every rate is |
| `Tally.SumRatesBounds` | src/pages/AdminDashboard.tsx:26 | with all rates in [lo, hi], the sum lies in [n·lo, n·hi] |
| `Staff.StaffStats` | src/pages/FuncionarioDashboard.tsx:35-41 | available, rented and maintenance are the counts of their own status, and they sum to the total; active reservations is the count of `'confirmada'`, ≤ all, and 0 iff none is confirmed |
| `Staff.NatToString` | src/pages/FuncionarioDashboard.tsx:97 | `toString()` of a count is a non-empty digit string without a leading zero |
| `Staff.ParseNatToString` | src/pages/FuncionarioDashboard.tsx:97 | reading the decimal id back gives the number |
| `Staff.NatToStringInjective` | src/pages/FuncionarioDashboard.tsx:97 | different counts give different ids |
| `Staff.ApplyForm` | src/pages/FuncionarioDashboard.tsx:87 | an edited vehicle carries the form's fields and the new time, and keeps its id, creation time and other attributes |
| `Staff.EditedFleet` | src/pages/FuncionarioDashboard.tsx:83-89 | an edit keeps the length; vehicles with the edited id take the form and keep id and createdAt; every other vehicle is unchanged |
| `Staff.NewVehicle` | src/pages/FuncionarioDashboard.tsx:96-101 | a new vehicle carries the form, the given id and the current time as both timestamps |
| `Staff.AddedFleet` | src/pages/FuncionarioDashboard.tsx:94-102 | an add appends exactly one vehicle, with id = string of (old length + 1) and the form's fields; earlier vehicles are unchanged |
| `Staff.AddedIdIsFresh` | src/pages/FuncionarioDashboard.tsx:97 | on a fleet with ids "1".."n", the id an add assigns is not already used |
| `Staff.SavesKeepIdsSequential` | src/pages/FuncionarioDashboard.tsx:83-102 | adds and edits keep ids "1".."n" |
| `Staff.WithCharacteristic` | src/pages/FuncionarioDashboard.tsx:112-119 | an empty or present characteristic changes nothing; otherwise it is appended; the old list is a prefix; no duplicates are introduced |
| `Staff.WithoutIndex` | src/pages/FuncionarioDashboard.tsx:121-126 | removing at an in-range index deletes exactly that element and keeps the order; an out-of-range index changes nothing |
| `Staff.WithoutIndexKeepsNoDuplicates` | src/pages/FuncionarioDashboard.tsx:121-126 | removal keeps a duplicate-free list duplicate-free |
| `Staff.FleetEditor.constructor` | src/pages/FuncionarioDashboard.tsx:17-29 | the page starts with the given fleet, dialog closed, add mode and a blank form |
| `Staff.FleetEditor.AddVehicle` | src/pages/FuncionarioDashboard.tsx:43-56 | leaves edit mode, resets the form (status available, rate 0, no characteristics), opens the dialog; the fleet is unchanged |
| `Staff.FleetEditor.EditVehicle` | src/pages/FuncionarioDashboard.tsx:58-71 | enters edit mode for the vehicle and fills the form from it |
| `Staff.FleetEditor.SaveVehicle` | src/pages/FuncionarioDashboard.tsx:73-110 | with an empty plate, model or category nothing changes and the dialog stays as it was; otherwise the edit or add is applied and the dialog closes |
| `Staff.FleetEditor.AddCharacteristic` | src/pages/FuncionarioDashboard.tsx:112-119 | only the form's characteristics change, as `WithCharacteristic` says |
| `Staff.FleetEditor.RemoveCharacteristic` | src/pages/FuncionarioDashboard.tsx:121-126 | only the form's characteristics change, as `WithoutIndex` says |
| `Staff.AddFlowAppends` | src/pages/FuncionarioDashboard.tsx:43-110 | after "add vehicle", saving a complete form appends, even if a vehicle was being edited before |
| `Customer.CeilDiv` | src/pages/ClienteDashboard.tsx:118 | `Math.ceil(a / b)` is the least q with a ≤ q·b |
| `Customer.StayDays` | src/pages/ClienteDashboard.tsx:118 | rounding up the millisecond difference of two midnights gives end − start in days |
| `Customer.TotalSigns` | src/pages/ClienteDashboard.tsx:118-119 | at a positive rate: same day costs 0, a reversed range is negative, a forward range costs at least one day |
| `Customer.TotalSplits` | src/pages/ClienteDashboard.tsx:118-119 | the price of a stay is the sum of the prices of its two parts |
| `Customer.SampleReservationPrice` | src/pages/ClienteDashboard.tsx:118-119 | 2024-07-15 to 2024-07-20 at 150 is 5 days and 750, as in the sample reservation |
| `Customer.NormaliseStatus` | src/pages/ClienteDashboard.tsx:92 | `'ativa'` becomes `'confirmada'`, any other status passes through, and `'ativa'` never comes out |
| `Customer.NormaliseStatusIdempotent` | src/pages/ClienteDashboard.tsx:92 | normalising twice is normalising once |
| `Customer.FormatReservations` | src/pages/ClienteDashboard.tsx:85-94 | the shown reservations are the rows in order, each with its status normalised; none shows `'ativa'` |
| `Customer.Select` | src/pages/ClienteDashboard.tsx:163-174 | the search result is a subsequence of the fleet, and every result matches every active filter |
| `Customer.SelectMultiplicity` | src/pages/ClienteDashboard.tsx:163-174 | a matching vehicle is kept as often as the fleet lists it; a non-matching one never appears |
| `Customer.InCategory` | src/pages/ClienteDashboard.tsx:167 | the category pass never grows the list |
| `Customer.AtMostPrice` | src/pages/ClienteDashboard.tsx:171 | the price pass never grows the list |
| `Customer.TwoPassesSelect` | src/pages/ClienteDashboard.tsx:163-174 | category pass then price pass equals the one-pass conjunctive search |
| `Customer.InactiveFiltersKeepAll` | src/pages/ClienteDashboard.tsx:166-170 | a missing or falsy category (empty) and price (0) give back the whole fleet |
| `Customer.NewReservationRow` | src/pages/ClienteDashboard.tsx:117-131 | the inserted row carries the user id, the vehicle id, both dates, the total (end − start) × daily rate and status `'ativa'`, which reads back as `'confirmada'` |
| `Customer.CustomerDashboard.constructor` | src/pages/ClienteDashboard.tsx:20-28 | the page starts empty: no vehicles, no selection, empty dates, dialog closed |
| `Customer.CustomerDashboard.VehiclesLoaded` | src/pages/ClienteDashboard.tsx:58-59 | fetched vehicles become both the fleet and the shown list |
| `Customer.CustomerDashboard.ReservationsLoaded` | src/pages/ClienteDashboard.tsx:71-100 | without a user id nothing changes; otherwise the rows are shown with normalised statuses |
| `Customer.CustomerDashboard.SelectVehicle` | src/pages/ClienteDashboard.tsx:107-110 | selects the vehicle and opens the dialog |
| `Customer.CustomerDashboard.Search` | src/pages/ClienteDashboard.tsx:163-175 | the shown list becomes the conjunctive search of the fleet; nothing else changes |
| `Customer.CustomerDashboard.Reserve` | src/pages/ClienteDashboard.tsx:112-161 | a missing vehicle, date or user id means no insert and no change; otherwise the priced `'ativa'` row is sent; a successful insert clears vehicle, dates and dialog and replaces both vehicle lists and the reservations with what the reloads fetch (a failed fetch leaves its list); a failed insert changes nothing else; loading ends cleared |
| `Admin.AverageRate` | src/pages/AdminDashboard.tsx:26 | 0 for an empty fleet (no division by zero); otherwise average × size = sum of rates |
| `Admin.AverageRateBounds` | src/pages/AdminDashboard.tsx:26 | with all rates in [lo, hi], the average is in [lo, hi] |
| `Admin.RoleCountsDisjoint` | src/pages/AdminDashboard.tsx:18-19 | two different roles together count at most all users |
| `Admin.WellTypedRolesPartition` | src/pages/AdminDashboard.tsx:17-19 | for well-typed users, clients + employees + administrators = all users |
| `Admin.Stats` | src/pages/AdminDashboard.tsx:16-27 | clients and employees are the counts of `'cliente'` and `'funcionario'`, available and rented the counts of their status, active the count of `'confirmada'`, revenue the sum of all amounts, the average `AverageRate`; clients + employees ≤ users; available + rented ≤ vehicles; active ≤ reservations; revenue 0 when there are no reservations and ≥ 0 for non-negative amounts; average 0 on an empty fleet |
| `Admin.RevenueGrows` | src/pages/AdminDashboard.tsx:25 | one more reservation of any status adds exactly its amount to revenue |
| `Admin.RoleVariant` | src/pages/AdminDashboard.tsx:29-40 | administrador → destructive, funcionario → secondary, cliente → default, each exactly for that role |
| `Admin.RoleLabel` | src/pages/AdminDashboard.tsx:42-53 | the three roles get their fixed labels |
| `Admin.MappersAgreeOnUnknownRoles` | src/pages/AdminDashboard.tsx:29-53 | a role is shown as itself exactly when its badge is outline; well-typed users never get outline |
| `Search.Apply` | src/components/VehicleSearch.tsx:19-24 | a filter change sets exactly its key to its value; every other key is unchanged |
| `Search.ApplyOverwrites` | src/components/VehicleSearch.tsx:19-24 | changing the same key twice keeps only the second value |
| `Search.CategoryChoice` | src/components/VehicleSearch.tsx:51 | `'all'` stores no filter; any other choice is stored as is |
| `Search.ShownCategory` | src/components/VehicleSearch.tsx:50 | the select never shows an empty value; a missing category shows as `'all'` |
| `Search.ChoiceRoundTrip` | src/components/VehicleSearch.tsx:50-51 | choosing a category and reading the select back gives the choice |
| `Search.DateInput` | src/components/VehicleSearch.tsx:73-83 | an empty date input stores no filter, never an empty string |
| `Search.PriceInput` | src/components/VehicleSearch.tsx:94 | an empty price input stores no filter; otherwise its numeric value |
| `Search.VehicleSearch.constructor` | src/components/VehicleSearch.tsx:17 | the local filters start as the given filters |
| `Search.VehicleSearch.FilterChanged` | src/components/VehicleSearch.tsx:19-24 | the local filters become `Apply` of the change; nothing is emitted |
| `Search.VehicleSearch.RunSearch` | src/components/VehicleSearch.tsx:26-28 | emits the current filters unchanged |
| `Search.VehicleSearch.ClearFilters` | src/components/VehicleSearch.tsx:30-34 | sets the filters to the empty record and emits that record |
| `Search.InitialLocalFilters` | src/components/VehicleSearch.tsx:17 | the local filters start as the prop, undefined when the prop is not passed |
| `Search.RenderCategory` | src/components/VehicleSearch.tsx:50 | the select crashes exactly when the local filters are undefined, and otherwise shows the category or `'all'` |
| `Search.MountWithoutFiltersCrashes` | src/pages/ClienteDashboard.tsx:190 | mounted without `filters`, the widget's first render throws |
| `Search.MountWithFiltersRenders` | src/components/VehicleSearch.tsx:17-50 | mounted with a filters record, the widget renders its category, `'all'` when none is set |
| `Search.MountOnCustomerPage` | src/pages/ClienteDashboard.tsx:190 | the corrected mount passes empty filters: the widget starts with no filters, has emitted nothing, and shows `'all'` |
| `Search.AsReceived` | src/pages/ClienteDashboard.tsx:163-172 | the page reads `category` and `maxPrice` off a widget filter object, so neither filter is ever active |
| `Search.WiredSearchIgnoresFilters` | src/pages/ClienteDashboard.tsx:163-174 | as written, a search from the widget returns the whole fleet |
| `Search.WiredSearchCounterexample` | src/pages/ClienteDashboard.tsx:166-171 | category `'suv'` still lists an economy car |
| `Search.Translate` | src/pages/ClienteDashboard.tsx:166-171 | the translated page filters match exactly the vehicles that the widget's filters describe |
| `Search.CorrectedWiredSearch` | src/pages/ClienteDashboard.tsx:163-174 | with translation, the search keeps exactly the matching vehicles, with their multiplicity |
| `Search.SearchFromWidget` | src/pages/ClienteDashboard.tsx:190 | the widget emits its filters and the page shows the conjunctive search of the fleet under the translated filters |
| `Auth.WellTypedHasNoOverride` | src/lib/auth.ts:39-42 | for a user whose role is one of the three, `hasRole` is plain role equality |
| `Auth.Authenticate` | src/lib/auth.ts:10-15 | any credentials give a well-typed client with id "1" and the given email |
| `Auth.AuthenticatedIsClientOnly` | src/lib/auth.ts:10-15 | the authenticated user passes exactly the `'cliente'` check |
| `Auth.AuthService.CurrentUser` | src/lib/auth.ts:18-25 | nothing when the slot is absent, empty, unparseable or `null`; otherwise the parse result, a user or a non-user value |
| `Auth.AuthService.IsAuthenticated` | src/lib/auth.ts:31-33 | true exactly when the current value is not null: a non-empty stored text that parses to a user or to a non-user value |
| `Auth.AuthService.HasRole` | src/lib/auth.ts:35-43 | true exactly when the current value is a user whose role is `'admin'` or the required role, whatever the role string; implies authenticated |
| `Auth.NonUserValueAuthenticatesWithoutRoles` | src/lib/auth.ts:31-40 | a stored value that is not a user (such as `0`) counts as authenticated but passes no role check |
| `Auth.NullValueDoesNotAuthenticate` | src/lib/auth.ts:18-33 | stored text that parses to `null` authenticates nobody and passes no role check |
| `Auth.AuthService.Logout` | src/lib/auth.ts:27-29 | empties the slot; then there is no current user, no authentication and every role check fails |

## Findings

| source | as written | input that shows it | evidently intended | confidence | as-written member | corrected member |
|---|---|---|---|---|---|---|
| src/pages/ClienteDashboard.tsx:166-171 | the search handler reads `filters.category` and `filters.maxPrice`, but the search widget (mounted at line 190) emits `SearchFilters` objects with keys `categoria` and `valorMaximo` | `{ categoria: 'suv' }` from the widget: every vehicle is still listed | filter by the widget's `categoria` and `valorMaximo` (the input reaches the handler only once the widget is mounted with its `filters` prop, see the next row) | high (not executed) | `Search.AsReceived`, `Search.WiredSearchIgnoresFilters`, `Search.WiredSearchCounterexample` | `Search.Translate`, `Search.CorrectedWiredSearch`, `Search.SearchFromWidget` |
| src/pages/ClienteDashboard.tsx:190 | the search widget is mounted without its required `filters` prop, so its local filters start undefined (src/components/VehicleSearch.tsx:17) and reading `categoria` off them (src/components/VehicleSearch.tsx:50) throws on the first render | opening the customer page | mount the widget with empty filters | high (not executed) | `Search.InitialLocalFilters`, `Search.RenderCategory`, `Search.MountWithoutFiltersCrashes` | `Search.MountWithFiltersRenders`, `Search.MountOnCustomerPage` |

## Left out

- Backend queries and inserts (`loadVehicles`, `loadReservations`, the insert in `handleReserve`), the realtime hook and the reloads after a reservation are network I/O. The model keeps only the state updates around them. The insert's outcome is the `inserted` parameter of `Reserve`, and fetched rows are parameters.
- Date parsing (`new Date`, `getTime`) is replaced by integer day numbers taken at midnight. A non-empty but unparseable date input is not modelled. `DayNumber` exists only to state the sample price on calendar dates.
- Floating point is not modelled. `parseFloat`, `Number(...)`, `toFixed` and `toLocaleString` are out, and rates and amounts are exact reals. The numeric value of a price input is the `number` parameter of `PriceInput`.
- The clock is a parameter: the current time is `now` and the current year is `year`.
- The browser storage and `JSON.parse` are modelled by the `Slot` datatype: absent, or a text with its parse result (nothing, a non-user value, or a user). A parsed object without a string role is treated as a non-user value. The simulated one-second delay of `authenticate` is not modelled.
- Rendering, toasts, colours and labels of vehicle statuses, routing, the login form (validated by a library not part of this model) and the auth context wrapper are not part of this model.
- Vehicles have more attributes than the model keeps: brand, fuel, doors and so on. The model keeps one, `marca`, to show that a save preserves what the form does not carry. A newly added vehicle has it empty.
- `Customer.InCategory`: states only that the pass never grows the list. Its exact meaning is given through `TwoPassesSelect`.
- `Customer.AtMostPrice`: states only that the pass never grows the list. Its exact meaning is given through `TwoPassesSelect`.
- The widget's date filters are stored but no search reads them. The model stores them too and applies no date-based availability.
- `Customer.CustomerDashboard.Search` follows the handler's falsy tests for a missing or empty category and a missing or zero maximum price. A NaN maximum price is not modelled.
