/** Counting and summing over the lists the dashboards display: the
    `filter(...).length` and `reduce(...)` expressions of the staff and
    administrator pages, defined once and shared by both. */
module Tally {
  import opened Domain

  /** Number of vehicles whose status is `s`. */
  function CountVehicles(vs: seq<Vehicle>, s: VehicleStatus): (n: nat)
    ensures n <= |vs|
    ensures n == 0 <==> forall i :: 0 <= i < |vs| ==> vs[i].status != s
    ensures n == |vs| <==> forall i :: 0 <= i < |vs| ==> vs[i].status == s
  {
    if vs == [] then 0
    else (if vs[0].status == s then 1 else 0) + CountVehicles(vs[1..], s)
  }

  /** Number of reservations whose status is `s`. */
  function CountReservations(rs: seq<Reservation>, s: ReservationStatus): (n: nat)
    ensures n <= |rs|
    ensures n == 0 <==> forall i :: 0 <= i < |rs| ==> rs[i].status != s
  {
    if rs == [] then 0
    else (if rs[0].status == s then 1 else 0) + CountReservations(rs[1..], s)
  }

  /** Number of users whose role string is `role`. */
  function CountRole(us: seq<User>, role: string): (n: nat)
    ensures n <= |us|
    ensures n == 0 <==> forall i :: 0 <= i < |us| ==> us[i].role != role
  {
    if us == [] then 0
    else (if us[0].role == role then 1 else 0) + CountRole(us[1..], role)
  }

  /** Sum of the reservations' total amounts, whatever their status. */
  function SumAmounts(rs: seq<Reservation>): (total: real)
    ensures (forall i :: 0 <= i < |rs| ==> rs[i].totalAmount >= 0.0) ==> total >= 0.0
  {
    if rs == [] then 0.0 else rs[0].totalAmount + SumAmounts(rs[1..])
  }

  /** Sum of the vehicles' daily rates. */
  function SumRates(vs: seq<Vehicle>): (total: real)
    ensures (forall i :: 0 <= i < |vs| ==> vs[i].valorDiaria >= 0.0) ==> total >= 0.0
  {
    if vs == [] then 0.0 else vs[0].valorDiaria + SumRates(vs[1..])
  }

  /** The statuses of a fleet, in order. */
  function StatusesOf(vs: seq<Vehicle>): (ss: seq<VehicleStatus>)
    ensures |ss| == |vs| && forall i :: 0 <= i < |vs| ==> ss[i] == vs[i].status
  {
    if vs == [] then [] else [vs[0].status] + StatusesOf(vs[1..])
  }

  /** A status count is the multiplicity of that status in the fleet's
      statuses: an independent definition of what `filter(...).length` counts. */
  lemma {:induction false} CountIsMultiplicity(vs: seq<Vehicle>, s: VehicleStatus)
    ensures CountVehicles(vs, s) == multiset(StatusesOf(vs))[s]
  {
    if vs != [] {
      CountIsMultiplicity(vs[1..], s);
      assert StatusesOf(vs) == [vs[0].status] + StatusesOf(vs[1..]);
    }
  }

  /** The statuses of a reservation list, in order. */
  function ReservationStatusesOf(rs: seq<Reservation>): (ss: seq<ReservationStatus>)
    ensures |ss| == |rs| && forall i :: 0 <= i < |rs| ==> ss[i] == rs[i].status
  {
    if rs == [] then [] else [rs[0].status] + ReservationStatusesOf(rs[1..])
  }

  /** A reservation count is the multiplicity of that status among the
      reservations' statuses. */
  lemma {:induction false} ReservationCountIsMultiplicity(rs: seq<Reservation>, s: ReservationStatus)
    ensures CountReservations(rs, s) == multiset(ReservationStatusesOf(rs))[s]
  {
    if rs != [] {
      ReservationCountIsMultiplicity(rs[1..], s);
      assert ReservationStatusesOf(rs) == [rs[0].status] + ReservationStatusesOf(rs[1..]);
    }
  }

  /** The role strings of a user list, in order. */
  function RolesOf(us: seq<User>): (roles: seq<string>)
    ensures |roles| == |us| && forall i :: 0 <= i < |us| ==> roles[i] == us[i].role
  {
    if us == [] then [] else [us[0].role] + RolesOf(us[1..])
  }

  /** A role count is the multiplicity of that role among the users' roles. */
  lemma {:induction false} RoleCountIsMultiplicity(us: seq<User>, role: string)
    ensures CountRole(us, role) == multiset(RolesOf(us))[role]
  {
    if us != [] {
      RoleCountIsMultiplicity(us[1..], role);
      assert RolesOf(us) == [us[0].role] + RolesOf(us[1..]);
    }
  }

  /** Every vehicle has exactly one of the three statuses, so the three
      counts add up to the fleet size. */
  lemma {:induction false} StatusCountsPartition(vs: seq<Vehicle>)
    ensures CountVehicles(vs, Disponivel) + CountVehicles(vs, Alugado)
            + CountVehicles(vs, Manutencao) == |vs|
  {
    if vs != [] {
      StatusCountsPartition(vs[1..]);
    }
  }

  lemma {:induction false} CountVehiclesAppend(a: seq<Vehicle>, b: seq<Vehicle>, s: VehicleStatus)
    ensures CountVehicles(a + b, s) == CountVehicles(a, s) + CountVehicles(b, s)
  {
    if a == [] {
      assert a + b == b;
    } else {
      assert (a + b)[1..] == a[1..] + b;
      CountVehiclesAppend(a[1..], b, s);
    }
  }

  lemma {:induction false} SumAmountsAppend(a: seq<Reservation>, b: seq<Reservation>)
    ensures SumAmounts(a + b) == SumAmounts(a) + SumAmounts(b)
  {
    if a == [] {
      assert a + b == b;
    } else {
      assert (a + b)[1..] == a[1..] + b;
      SumAmountsAppend(a[1..], b);
    }
  }

  /** With every rate between `lo` and `hi`, the sum of rates lies between
      `|vs| * lo` and `|vs| * hi`. */
  lemma {:induction false} SumRatesBounds(vs: seq<Vehicle>, lo: real, hi: real)
    requires forall i :: 0 <= i < |vs| ==> lo <= vs[i].valorDiaria <= hi
    ensures (|vs| as real) * lo <= SumRates(vs) <= (|vs| as real) * hi
  {
    if vs != [] {
      SumRatesBounds(vs[1..], lo, hi);
      assert (|vs| as real) * lo == lo + (|vs[1..]| as real) * lo;
      assert (|vs| as real) * hi == hi + (|vs[1..]| as real) * hi;
    }
  }
}
