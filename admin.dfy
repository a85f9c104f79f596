/** The administrator page: aggregate figures over users, vehicles and
    reservations, and the two role mappers used for the user badges. */
module Admin {
  import opened Domain
  import opened Tally

  /** `sum / (length || 1)`: the mean daily rate, 0 for an empty fleet. */
  function AverageRate(vs: seq<Vehicle>): (avg: real)
    ensures vs == [] ==> avg == 0.0
    ensures vs != [] ==> avg * (|vs| as real) == SumRates(vs)
  {
    SumRates(vs) / (if |vs| == 0 then 1 else |vs|) as real
  }

  /** The mean of rates that all lie between `lo` and `hi` lies there too. */
  lemma AverageRateBounds(vs: seq<Vehicle>, lo: real, hi: real)
    requires vs != []
    requires forall i :: 0 <= i < |vs| ==> lo <= vs[i].valorDiaria <= hi
    ensures lo <= AverageRate(vs) <= hi
  {
    SumRatesBounds(vs, lo, hi);
    QuotientBounds(SumRates(vs), |vs| as real, lo, hi);
  }

  lemma QuotientBounds(s: real, n: real, lo: real, hi: real)
    requires n > 0.0 && n * lo <= s <= n * hi
    ensures lo <= s / n <= hi
  {
  }

  lemma {:induction false} RoleCountsDisjoint(us: seq<User>, a: string, b: string)
    requires a != b
    ensures CountRole(us, a) + CountRole(us, b) <= |us|
  {
    if us != [] {
      RoleCountsDisjoint(us[1..], a, b);
    }
  }

  /** With every user holding one of the three roles, clients, employees
      and administrators together are all the users. */
  lemma {:induction false} WellTypedRolesPartition(us: seq<User>)
    requires forall i :: 0 <= i < |us| ==> WellTyped(us[i])
    ensures CountRole(us, Cliente) + CountRole(us, Funcionario) + CountRole(us, Administrador) == |us|
  {
    if us != [] {
      WellTypedRolesPartition(us[1..]);
    }
  }

  datatype AdminStats = AdminStats(
    totalUsers: nat,
    totalClients: nat,
    totalEmployees: nat,
    totalVehicles: nat,
    availableVehicles: nat,
    rentedVehicles: nat,
    totalReservations: nat,
    activeReservations: nat,
    revenue: real,
    avgDailyRate: real)

  /** The page's figures. Administrators are neither clients nor employees
      and vehicles in maintenance are neither available nor rented, so the
      partial counts stay within their totals. */
  function Stats(us: seq<User>, vs: seq<Vehicle>, rs: seq<Reservation>): (st: AdminStats)
    ensures st.totalClients == CountRole(us, Cliente) && st.totalEmployees == CountRole(us, Funcionario)
    ensures st.availableVehicles == CountVehicles(vs, Disponivel) && st.rentedVehicles == CountVehicles(vs, Alugado)
    ensures st.activeReservations == CountReservations(rs, Confirmada)
    ensures st.revenue == SumAmounts(rs) && st.avgDailyRate == AverageRate(vs)
    ensures st.totalClients + st.totalEmployees <= st.totalUsers == |us|
    ensures st.availableVehicles + st.rentedVehicles <= st.totalVehicles == |vs|
    ensures st.activeReservations <= st.totalReservations == |rs|
    ensures rs == [] ==> st.revenue == 0.0
    ensures (forall i :: 0 <= i < |rs| ==> rs[i].totalAmount >= 0.0) ==> st.revenue >= 0.0
    ensures vs == [] ==> st.avgDailyRate == 0.0
  {
    RoleCountsDisjoint(us, Cliente, Funcionario);
    StatusCountsPartition(vs);
    AdminStats(
      |us|, CountRole(us, Cliente), CountRole(us, Funcionario),
      |vs|, CountVehicles(vs, Disponivel), CountVehicles(vs, Alugado),
      |rs|, CountReservations(rs, Confirmada),
      SumAmounts(rs), AverageRate(vs))
  }

  /** Revenue counts every reservation whatever its status: one more
      reservation adds exactly its amount. */
  lemma RevenueGrows(us: seq<User>, vs: seq<Vehicle>, rs: seq<Reservation>, r: Reservation)
    ensures Stats(us, vs, rs + [r]).revenue == Stats(us, vs, rs).revenue + r.totalAmount
  {
    SumAmountsAppend(rs, [r]);
  }

  // ---------------------------------------------------------------------
  // Role badges

  datatype BadgeVariant = Destructive | Secondary | Default | Outline

  function RoleVariant(role: string): (v: BadgeVariant)
    ensures v == Destructive <==> role == Administrador
    ensures v == Secondary <==> role == Funcionario
    ensures v == Default <==> role == Cliente
  {
    if role == Administrador then Destructive
    else if role == Funcionario then Secondary
    else if role == Cliente then Default
    else Outline
  }

  function RoleLabel(role: string): (shown: string)
    ensures role == Administrador ==> shown == "Admin"
    ensures role == Funcionario ==> shown == "Funcionário"
    ensures role == Cliente ==> shown == "Cliente"
  {
    if role == Administrador then "Admin"
    else if role == Funcionario then "Funcionário"
    else if role == Cliente then "Cliente"
    else role
  }

  /** The two mappers agree on which roles they know: a role is shown under
      its own name exactly when its badge is the fallback outline, and a
      well-typed user never gets the fallback. */
  lemma MappersAgreeOnUnknownRoles(role: string)
    ensures RoleLabel(role) == role <==> RoleVariant(role) == Outline
    ensures RoleVariant(role) == Outline ==> !WellTyped(User("", "", "", role))
  {
  }
}
