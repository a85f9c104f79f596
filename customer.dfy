/** The customer page: pricing a stay, normalising reservation statuses read
    back from the backend, filtering the fleet, and the booking dialog. */
module Customer {
  import opened Domain

  // ---------------------------------------------------------------------
  // Pricing

  /** Milliseconds in a day. */
  const DayMillis: int := 1000 * 60 * 60 * 24

  /** `Math.ceil(a / b)` for a positive divisor. */
  function CeilDiv(a: int, b: int): (q: int)
    requires b > 0
    ensures (q - 1) * b < a <= q * b
  {
    -((-a) / b)
  }

  /** Number of days a stay is charged: the difference of the two dates'
      midnight timestamps, in days, rounded up. Dates are day numbers. */
  function StayDays(startDay: int, endDay: int): (days: int)
    ensures days == endDay - startDay
  {
    var q := CeilDiv(endDay * DayMillis - startDay * DayMillis, DayMillis);
    assert (q - 1) * DayMillis < (endDay - startDay) * DayMillis <= q * DayMillis;
    ExactQuotient(q, endDay - startDay, DayMillis);
    q
  }

  lemma ExactQuotient(q: int, k: int, b: int)
    requires b > 0 && (q - 1) * b < k * b <= q * b
    ensures q == k
  {
  }

  /** `days * dailyRate`. */
  function ReservationTotal(startDay: int, endDay: int, rate: real): real {
    StayDays(startDay, endDay) as real * rate
  }

  /** Whole days, end exclusive: a same-day range costs nothing, and a range
      that ends before it starts has a negative price (nothing checks the
      order of the dates). */
  lemma TotalSigns(startDay: int, endDay: int, rate: real)
    requires rate > 0.0
    ensures startDay == endDay ==> ReservationTotal(startDay, endDay, rate) == 0.0
    ensures endDay < startDay ==> ReservationTotal(startDay, endDay, rate) < 0.0
    ensures startDay < endDay ==> ReservationTotal(startDay, endDay, rate) >= rate
  {
  }

  /** Splitting a stay at any day splits its price. */
  lemma TotalSplits(startDay: int, midDay: int, endDay: int, rate: real)
    ensures ReservationTotal(startDay, midDay, rate) + ReservationTotal(midDay, endDay, rate)
            == ReservationTotal(startDay, endDay, rate)
  {
  }

  /** Day number of a date of the proleptic Gregorian calendar
      (1970-01-01 is day 0). */
  function DayNumber(year: int, month: int, day: int): int
    requires 1 <= month <= 12
  {
    var y := if month <= 2 then year - 1 else year;
    var era := (if y >= 0 then y else y - 399) / 400;
    var yoe := y - era * 400;
    var mp := if month > 2 then month - 3 else month + 9;
    var doy := (153 * mp + 2) / 5 + day - 1;
    var doe := yoe * 365 + yoe / 4 - yoe / 100 + doy;
    era * 146097 + doe - 719468
  }

  /** Vehicle 3 at 150 a day from 2024-07-15 to 2024-07-20: five days, 750. */
  lemma SampleReservationPrice()
    ensures DayNumber(2024, 7, 15) == 19919
    ensures StayDays(DayNumber(2024, 7, 15), DayNumber(2024, 7, 20)) == 5
    ensures ReservationTotal(DayNumber(2024, 7, 15), DayNumber(2024, 7, 20), 150.0) == 750.0
  {
  }

  // ---------------------------------------------------------------------
  // Reservation status as read back from the backend

  /** The backend stores new reservations as "ativa"; the page shows that as
      "confirmada" and every other status as it is. */
  function NormaliseStatus(raw: string): (s: string)
    ensures s != "ativa"
    ensures raw != "ativa" ==> s == raw
    ensures raw == "ativa" ==> s == "confirmada"
  {
    if raw == "ativa" then "confirmada" else raw
  }

  lemma NormaliseStatusIdempotent(raw: string)
    ensures NormaliseStatus(NormaliseStatus(raw)) == NormaliseStatus(raw)
  {
  }

  /** A reservation row as the backend returns it. */
  datatype ReservationRow = ReservationRow(
    id: string, userId: string, vehicleId: string,
    startDay: int, endDay: int, totalAmount: real, status: string)

  /** The page's view of a list of rows: same rows, same order, statuses
      normalised. */
  function FormatReservations(rows: seq<ReservationRow>): (shown: seq<ReservationRow>)
    ensures |shown| == |rows|
    ensures forall i :: 0 <= i < |rows| ==>
              shown[i] == rows[i].(status := NormaliseStatus(rows[i].status))
    ensures forall i :: 0 <= i < |shown| ==> shown[i].status != "ativa"
  {
    if rows == [] then []
    else [rows[0].(status := NormaliseStatus(rows[0].status))] + FormatReservations(rows[1..])
  }

  // ---------------------------------------------------------------------
  // Filtering the fleet

  /** The filter object `handleSearch` reads: `category` and `maxPrice`. */
  datatype PageFilters = PageFilters(category: Option<string>, maxPrice: Option<real>)

  /** A filter value that is missing or falsy (empty text, zero) is ignored. */
  predicate CategoryActive(f: PageFilters) {
    f.category.Some? && f.category.value != ""
  }

  predicate PriceActive(f: PageFilters) {
    f.maxPrice.Some? && f.maxPrice.value != 0.0
  }

  /** The conjunction of the active filters. */
  predicate Matches(v: Vehicle, f: PageFilters) {
    && (CategoryActive(f) ==> v.categoria == f.category.value)
    && (PriceActive(f) ==> v.valorDiaria <= f.maxPrice.value)
  }

  /** `r` is `s` with some elements dropped, the rest in their order. */
  predicate IsSubsequence(r: seq<Vehicle>, s: seq<Vehicle>)
    decreases |s|
  {
    r == [] || (s != [] && ((r[0] == s[0] && IsSubsequence(r[1..], s[1..])) || IsSubsequence(r, s[1..])))
  }

  /** Reference definition of a search: one pass keeping the matches. */
  function Select(vs: seq<Vehicle>, f: PageFilters): (r: seq<Vehicle>)
    ensures IsSubsequence(r, vs)
    ensures forall i :: 0 <= i < |r| ==> Matches(r[i], f)
  {
    if vs == [] then []
    else if Matches(vs[0], f) then [vs[0]] + Select(vs[1..], f)
    else Select(vs[1..], f)
  }

  /** A search keeps every matching vehicle as often as the fleet lists it,
      and drops every other one. */
  lemma {:induction false} SelectMultiplicity(vs: seq<Vehicle>, f: PageFilters, v: Vehicle)
    ensures multiset(Select(vs, f))[v] == if Matches(v, f) then multiset(vs)[v] else 0
  {
    if vs != [] {
      SelectMultiplicity(vs[1..], f, v);
      assert vs == [vs[0]] + vs[1..];
    }
  }

  /** `filter(v => v.categoria === c)`. */
  function InCategory(vs: seq<Vehicle>, c: string): (r: seq<Vehicle>)
    ensures |r| <= |vs|
  {
    if vs == [] then []
    else if vs[0].categoria == c then [vs[0]] + InCategory(vs[1..], c)
    else InCategory(vs[1..], c)
  }

  /** `filter(v => v.valorDiaria <= p)`. */
  function AtMostPrice(vs: seq<Vehicle>, p: real): (r: seq<Vehicle>)
    ensures |r| <= |vs|
  {
    if vs == [] then []
    else if vs[0].valorDiaria <= p then [vs[0]] + AtMostPrice(vs[1..], p)
    else AtMostPrice(vs[1..], p)
  }

  function CategoryPass(vs: seq<Vehicle>, f: PageFilters): seq<Vehicle> {
    if CategoryActive(f) then InCategory(vs, f.category.value) else vs
  }

  function PricePass(vs: seq<Vehicle>, f: PageFilters): seq<Vehicle> {
    if PriceActive(f) then AtMostPrice(vs, f.maxPrice.value) else vs
  }

  /** Filtering first by category and then by price is the one-pass search. */
  lemma {:induction false} TwoPassesSelect(vs: seq<Vehicle>, f: PageFilters)
    ensures PricePass(CategoryPass(vs, f), f) == Select(vs, f)
  {
    if vs != [] {
      TwoPassesSelect(vs[1..], f);
    }
  }

  /** Empty or falsy filters keep every vehicle. */
  lemma {:induction false} InactiveFiltersKeepAll(vs: seq<Vehicle>, f: PageFilters)
    requires !CategoryActive(f) && !PriceActive(f)
    ensures Select(vs, f) == vs
  {
    if vs != [] {
      InactiveFiltersKeepAll(vs[1..], f);
    }
  }

  // ---------------------------------------------------------------------
  // The page state

  /** The row `handleReserve` inserts. */
  function NewReservationRow(userId: string, v: Vehicle, startDay: int, endDay: int): (row: ReservationRow)
    ensures row.userId == userId && row.vehicleId == v.id
    ensures row.startDay == startDay && row.endDay == endDay
    ensures row.totalAmount == (endDay - startDay) as real * v.valorDiaria
    ensures row.status == "ativa" && NormaliseStatus(row.status) == "confirmada"
  {
    ReservationRow("", userId, v.id, startDay, endDay, ReservationTotal(startDay, endDay, v.valorDiaria), "ativa")
  }

  /** What `handleReserve` checks before doing anything: a vehicle, both
      dates (an empty date input is `None`) and a signed-in user with an id. */
  predicate CanReserve(selected: Option<Vehicle>, startDay: Option<int>, endDay: Option<int>, user: Option<User>) {
    selected.Some? && startDay.Some? && endDay.Some? && user.Some? && user.value.id != ""
  }

  class CustomerDashboard {
    var vehicles: seq<Vehicle>
    var filteredVehicles: seq<Vehicle>
    var userReservations: seq<ReservationRow>
    var selected: Option<Vehicle>
    var startDay: Option<int>
    var endDay: Option<int>
    var dialogOpen: bool
    var loading: bool

    constructor ()
      ensures vehicles == [] && filteredVehicles == [] && userReservations == []
      ensures selected == None && startDay == None && endDay == None
      ensures !dialogOpen && !loading
    {
      vehicles, filteredVehicles, userReservations := [], [], [];
      selected, startDay, endDay := None, None, None;
      dialogOpen, loading := false, false;
    }

    /** The state update after the vehicles have been fetched. */
    method VehiclesLoaded(vs: seq<Vehicle>)
      modifies this
      ensures vehicles == vs && filteredVehicles == vs
      ensures userReservations == old(userReservations) && selected == old(selected)
      ensures startDay == old(startDay) && endDay == old(endDay)
      ensures dialogOpen == old(dialogOpen) && loading == old(loading)
    {
      vehicles, filteredVehicles := vs, vs;
    }

    /** `loadReservations`: without a user id nothing happens; otherwise the
        fetched rows are shown with their statuses normalised. */
    method ReservationsLoaded(user: Option<User>, rows: seq<ReservationRow>)
      modifies this
      ensures user.Some? && user.value.id != "" ==> userReservations == FormatReservations(rows)
      ensures !(user.Some? && user.value.id != "") ==> userReservations == old(userReservations)
      ensures vehicles == old(vehicles) && filteredVehicles == old(filteredVehicles)
      ensures selected == old(selected) && startDay == old(startDay) && endDay == old(endDay)
      ensures dialogOpen == old(dialogOpen) && loading == old(loading)
    {
      if user.Some? && user.value.id != "" {
        userReservations := FormatReservations(rows);
      }
    }

    /** `handleVehicleSelect`. */
    method SelectVehicle(v: Vehicle)
      modifies this
      ensures selected == Some(v) && dialogOpen
      ensures vehicles == old(vehicles) && filteredVehicles == old(filteredVehicles)
      ensures userReservations == old(userReservations)
      ensures startDay == old(startDay) && endDay == old(endDay) && loading == old(loading)
    {
      selected := Some(v);
      dialogOpen := true;
    }

    /** `handleSearch`: narrows the fleet by category, then by price. */
    method Search(f: PageFilters)
      modifies this
      ensures filteredVehicles == Select(vehicles, f)
      ensures vehicles == old(vehicles) && userReservations == old(userReservations)
      ensures selected == old(selected) && startDay == old(startDay) && endDay == old(endDay)
      ensures dialogOpen == old(dialogOpen) && loading == old(loading)
    {
      var filtered := vehicles;
      if CategoryActive(f) {
        filtered := InCategory(filtered, f.category.value);
      }
      if PriceActive(f) {
        filtered := AtMostPrice(filtered, f.maxPrice.value);
      }
      TwoPassesSelect(vehicles, f);
      filteredVehicles := filtered;
    }

    /** `handleReserve`. When the guard fails nothing happens and nothing is
        sent. Otherwise the row to insert is returned; `inserted` is the
        backend's answer. On success the dialog is reset and both lists are
        reloaded: `fetchedVehicles` and `fetchedRows` are what the two
        reloads fetch (`None` when a fetch fails, which leaves that list as
        it was). On failure nothing else changes. Either way the loading
        flag ends cleared. */
    method Reserve(user: Option<User>, inserted: bool,
                   fetchedVehicles: Option<seq<Vehicle>>, fetchedRows: Option<seq<ReservationRow>>)
      returns (request: Option<ReservationRow>)
      modifies this
      ensures !CanReserve(old(selected), old(startDay), old(endDay), user) ==>
                request == None && selected == old(selected) && startDay == old(startDay)
                && endDay == old(endDay) && dialogOpen == old(dialogOpen) && loading == old(loading)
      ensures CanReserve(old(selected), old(startDay), old(endDay), user) ==>
                request == Some(NewReservationRow(user.value.id, old(selected).value,
                                                  old(startDay).value, old(endDay).value))
                && !loading
      ensures CanReserve(old(selected), old(startDay), old(endDay), user) && inserted ==>
                selected == None && startDay == None && endDay == None && !dialogOpen
      ensures CanReserve(old(selected), old(startDay), old(endDay), user) && !inserted ==>
                selected == old(selected) && startDay == old(startDay) && endDay == old(endDay)
                && dialogOpen == old(dialogOpen)
      ensures CanReserve(old(selected), old(startDay), old(endDay), user) && inserted && fetchedVehicles.Some? ==>
                vehicles == fetchedVehicles.value && filteredVehicles == fetchedVehicles.value
      ensures CanReserve(old(selected), old(startDay), old(endDay), user) && inserted && fetchedRows.Some? ==>
                userReservations == FormatReservations(fetchedRows.value)
      ensures !(CanReserve(old(selected), old(startDay), old(endDay), user) && inserted && fetchedVehicles.Some?) ==>
                vehicles == old(vehicles) && filteredVehicles == old(filteredVehicles)
      ensures !(CanReserve(old(selected), old(startDay), old(endDay), user) && inserted && fetchedRows.Some?) ==>
                userReservations == old(userReservations)
    {
      if !CanReserve(selected, startDay, endDay, user) {
        return None;
      }
      loading := true;
      request := Some(NewReservationRow(user.value.id, selected.value, startDay.value, endDay.value));
      if inserted {
        selected := None;
        startDay := None;
        endDay := None;
        dialogOpen := false;
        if fetchedVehicles.Some? {
          VehiclesLoaded(fetchedVehicles.value);
        }
        if fetchedRows.Some? {
          ReservationsLoaded(user, fetchedRows.value);
        }
      }
      loading := false;
    }
  }
}
