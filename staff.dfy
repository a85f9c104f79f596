/** The staff page: fleet figures, and the vehicle editor whose handlers
    replace the page's state (vehicle list, edit form, vehicle being edited,
    dialog flag) one step at a time. */
module Staff {
  import opened Domain
  import opened Tally

  // ---------------------------------------------------------------------
  // Fleet figures

  datatype FleetStats = FleetStats(
    totalVehicles: nat,
    availableVehicles: nat,
    rentedVehicles: nat,
    maintenanceVehicles: nat,
    activeReservations: nat)

  /** The figures of the staff page over a fleet and a reservation list. */
  function StaffStats(vs: seq<Vehicle>, rs: seq<Reservation>): (st: FleetStats)
    ensures st.totalVehicles == |vs|
    ensures st.availableVehicles == CountVehicles(vs, Disponivel)
    ensures st.rentedVehicles == CountVehicles(vs, Alugado)
    ensures st.maintenanceVehicles == CountVehicles(vs, Manutencao)
    ensures st.activeReservations == CountReservations(rs, Confirmada)
    ensures st.availableVehicles + st.rentedVehicles + st.maintenanceVehicles == st.totalVehicles
    ensures st.activeReservations <= |rs|
    ensures st.activeReservations == 0 <==> forall i :: 0 <= i < |rs| ==> rs[i].status != Confirmada
  {
    StatusCountsPartition(vs);
    FleetStats(|vs|, CountVehicles(vs, Disponivel), CountVehicles(vs, Alugado),
               CountVehicles(vs, Manutencao), CountReservations(rs, Confirmada))
  }

  // ---------------------------------------------------------------------
  // Decimal ids: a new vehicle's id is the decimal string of a number

  function Digit(d: nat): char
    requires d < 10
  {
    ('0' as int + d) as char
  }

  predicate IsDigit(c: char) {
    '0' <= c <= '9'
  }

  /** Decimal notation of `n`, without leading zeros. */
  function NatToString(n: nat): (s: string)
    ensures |s| >= 1
    ensures forall i :: 0 <= i < |s| ==> IsDigit(s[i])
    ensures s[0] == '0' ==> n == 0
    decreases n
  {
    if n < 10 then [Digit(n)] else NatToString(n / 10) + [Digit(n % 10)]
  }

  /** Value of a string of decimal digits. */
  function ParseDecimal(s: string): nat
    requires forall i :: 0 <= i < |s| ==> IsDigit(s[i])
  {
    if s == [] then 0
    else
      assert IsDigit(s[|s| - 1]);
      ParseDecimal(s[..|s| - 1]) * 10 + (s[|s| - 1] as int - '0' as int)
  }

  lemma {:induction false} ParseNatToString(n: nat)
    ensures ParseDecimal(NatToString(n)) == n
    decreases n
  {
    var s := NatToString(n);
    if n < 10 {
      assert s[..|s| - 1] == [];
    } else {
      assert s[..|s| - 1] == NatToString(n / 10);
      ParseNatToString(n / 10);
    }
  }

  /** Distinct numbers have distinct decimal ids. */
  lemma NatToStringInjective(a: nat, b: nat)
    requires NatToString(a) == NatToString(b)
    ensures a == b
  {
    ParseNatToString(a);
    ParseNatToString(b);
  }

  // ---------------------------------------------------------------------
  // The vehicle form and the list updates a save performs

  datatype VehicleForm = VehicleForm(
    placa: string,
    modelo: string,
    ano: int,
    cor: string,
    categoria: string,
    valorDiaria: real,
    status: VehicleStatus,
    caracteristicas: seq<string>)

  /** The form `handleAddVehicle` starts from; `year` is the current year. */
  function BlankForm(year: int): VehicleForm {
    VehicleForm("", "", year, "", "", 0.0, Disponivel, [])
  }

  /** The form filled from a vehicle when it is opened for editing. */
  function FormOf(v: Vehicle): VehicleForm {
    VehicleForm(v.placa, v.modelo, v.ano, v.cor, v.categoria, v.valorDiaria, v.status, v.caracteristicas)
  }

  /** A save goes ahead only when plate, model and category are non-empty. */
  predicate FormComplete(f: VehicleForm) {
    f.placa != "" && f.modelo != "" && f.categoria != ""
  }

  /** `{ ...v, ...form, updatedAt: now }`: the form's fields over `v`. */
  function ApplyForm(v: Vehicle, f: VehicleForm, now: string): (w: Vehicle)
    ensures FormOf(w) == f
    ensures w.id == v.id && w.createdAt == v.createdAt && w.marca == v.marca
    ensures w.updatedAt == now
  {
    v.(placa := f.placa, modelo := f.modelo, ano := f.ano, cor := f.cor,
       categoria := f.categoria, valorDiaria := f.valorDiaria, status := f.status,
       caracteristicas := f.caracteristicas, updatedAt := now)
  }

  /** The fleet after saving an edit of the vehicle with id `id`: every
      vehicle with that id takes the form, every other one is left alone. */
  function EditedFleet(vs: seq<Vehicle>, id: string, f: VehicleForm, now: string): (ws: seq<Vehicle>)
    ensures |ws| == |vs|
    ensures forall i :: 0 <= i < |vs| && vs[i].id == id ==>
              FormOf(ws[i]) == f && ws[i].id == id && ws[i].createdAt == vs[i].createdAt
              && ws[i].marca == vs[i].marca && ws[i].updatedAt == now
    ensures forall i :: 0 <= i < |vs| && vs[i].id != id ==> ws[i] == vs[i]
  {
    if vs == [] then []
    else [if vs[0].id == id then ApplyForm(vs[0], f, now) else vs[0]] + EditedFleet(vs[1..], id, f, now)
  }

  /** The vehicle a save in add mode creates. Attributes the form does not
      carry (`marca`) are left empty. */
  function NewVehicle(id: string, f: VehicleForm, now: string): (v: Vehicle)
    ensures FormOf(v) == f && v.id == id && v.createdAt == now && v.updatedAt == now
  {
    Vehicle(id, f.placa, f.modelo, "", f.ano, f.cor, f.categoria, f.valorDiaria,
            f.status, f.caracteristicas, now, now)
  }

  /** The fleet after saving in add mode: one vehicle appended, whose id is
      the decimal string of the new length. */
  function AddedFleet(vs: seq<Vehicle>, f: VehicleForm, now: string): (ws: seq<Vehicle>)
    ensures |ws| == |vs| + 1 && ws[..|vs|] == vs
    ensures ws[|vs|].id == NatToString(|vs| + 1) && FormOf(ws[|vs|]) == f
  {
    vs + [NewVehicle(NatToString(|vs| + 1), f, now)]
  }

  /** The ids of a fleet that only ever grew by adds: "1", "2", ... */
  predicate SequentialIds(vs: seq<Vehicle>) {
    forall i :: 0 <= i < |vs| ==> vs[i].id == NatToString(i + 1)
  }

  /** On a fleet with sequential ids, the id an add assigns is new. */
  lemma AddedIdIsFresh(vs: seq<Vehicle>)
    requires SequentialIds(vs)
    ensures forall i :: 0 <= i < |vs| ==> vs[i].id != NatToString(|vs| + 1)
  {
    forall i | 0 <= i < |vs|
      ensures vs[i].id != NatToString(|vs| + 1)
    {
      if vs[i].id == NatToString(|vs| + 1) {
        NatToStringInjective(i + 1, |vs| + 1);
      }
    }
  }

  /** Adds and edits both keep ids sequential. */
  lemma SavesKeepIdsSequential(vs: seq<Vehicle>, id: string, f: VehicleForm, now: string)
    requires SequentialIds(vs)
    ensures SequentialIds(AddedFleet(vs, f, now))
    ensures SequentialIds(EditedFleet(vs, id, f, now))
  {
  }

  // ---------------------------------------------------------------------
  // The characteristics list of the form

  predicate NoDuplicates(s: seq<string>) {
    forall i, j :: 0 <= i < j < |s| ==> s[i] != s[j]
  }

  /** Adding a characteristic: ignored when empty or already present,
      otherwise appended at the end. */
  function WithCharacteristic(s: seq<string>, c: string): (r: seq<string>)
    ensures |s| <= |r| <= |s| + 1 && r[..|s|] == s
    ensures |r| == |s| + 1 <==> c != "" && c !in s
    ensures c != "" ==> c in r
    ensures forall x :: x in r ==> x in s || x == c
    ensures NoDuplicates(s) ==> NoDuplicates(r)
  {
    if c != "" && c !in s then s + [c] else s
  }

  /** `filter((_, i) => i !== index)`: keeps every element whose position
      is not `index`. */
  function WithoutIndex(s: seq<string>, index: int): (r: seq<string>)
    ensures 0 <= index < |s| ==> r == s[..index] + s[index + 1..]
    ensures !(0 <= index < |s|) ==> r == s
  {
    if s == [] then []
    else (if index == 0 then [] else [s[0]]) + WithoutIndex(s[1..], index - 1)
  }

  /** Removing keeps a duplicate-free list duplicate-free. */
  lemma WithoutIndexKeepsNoDuplicates(s: seq<string>, index: int)
    requires NoDuplicates(s)
    ensures NoDuplicates(WithoutIndex(s, index))
  {
  }

  // ---------------------------------------------------------------------
  // The page state and its handlers

  class FleetEditor {
    var vehicles: seq<Vehicle>
    var dialogOpen: bool
    var editing: Option<Vehicle>
    var form: VehicleForm

    /** The page as first shown: the given fleet, closed dialog, add mode. */
    constructor (initial: seq<Vehicle>, year: int)
      ensures vehicles == initial && !dialogOpen && editing == None && form == BlankForm(year)
    {
      vehicles := initial;
      dialogOpen := false;
      editing := None;
      form := BlankForm(year);
    }

    /** `handleAddVehicle`: leave edit mode, blank the form, open the dialog. */
    method AddVehicle(year: int)
      modifies this
      ensures editing == None && form == BlankForm(year) && dialogOpen
      ensures vehicles == old(vehicles)
    {
      editing := None;
      form := BlankForm(year);
      dialogOpen := true;
    }

    /** `handleEditVehicle`: enter edit mode for `v`, fill the form from it. */
    method EditVehicle(v: Vehicle)
      modifies this
      ensures editing == Some(v) && form == FormOf(v) && dialogOpen
      ensures vehicles == old(vehicles)
    {
      editing := Some(v);
      form := FormOf(v);
      dialogOpen := true;
    }

    /** `handleSaveVehicle`: with an incomplete form nothing changes;
        otherwise the edit or the add is applied and the dialog closes.
        `saved` tells which toast is shown; `now` is the current time. */
    method SaveVehicle(now: string) returns (saved: bool)
      modifies this
      ensures saved == FormComplete(old(form))
      ensures !saved ==> vehicles == old(vehicles) && dialogOpen == old(dialogOpen)
      ensures saved ==> !dialogOpen
      ensures saved && old(editing).Some? ==>
                vehicles == EditedFleet(old(vehicles), old(editing).value.id, old(form), now)
      ensures saved && old(editing).None? ==> vehicles == AddedFleet(old(vehicles), old(form), now)
      ensures editing == old(editing) && form == old(form)
    {
      if !FormComplete(form) {
        return false;
      }
      if editing.Some? {
        vehicles := EditedFleet(vehicles, editing.value.id, form, now);
      } else {
        vehicles := AddedFleet(vehicles, form, now);
      }
      dialogOpen := false;
      saved := true;
    }

    /** `handleCharacteristicAdd`. */
    method AddCharacteristic(c: string)
      modifies this
      ensures form == old(form).(caracteristicas := WithCharacteristic(old(form).caracteristicas, c))
      ensures vehicles == old(vehicles) && editing == old(editing) && dialogOpen == old(dialogOpen)
    {
      if c != "" && c !in form.caracteristicas {
        form := form.(caracteristicas := form.caracteristicas + [c]);
      }
    }

    /** `handleCharacteristicRemove`. */
    method RemoveCharacteristic(index: int)
      modifies this
      ensures form == old(form).(caracteristicas := WithoutIndex(old(form).caracteristicas, index))
      ensures vehicles == old(vehicles) && editing == old(editing) && dialogOpen == old(dialogOpen)
    {
      form := form.(caracteristicas := WithoutIndex(form.caracteristicas, index));
    }
  }

  /** After "add vehicle", a complete form is saved as a new vehicle at the
      end of the fleet, even if a vehicle was being edited before. */
  method AddFlowAppends(e: FleetEditor, year: int, f: VehicleForm, now: string)
    requires FormComplete(f)
    modifies e
    ensures e.vehicles == AddedFleet(old(e.vehicles), f, now) && !e.dialogOpen
  {
    e.AddVehicle(year);
    e.form := f;
    var saved := e.SaveVehicle(now);
  }
}
