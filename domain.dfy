/** The entities of the rental application: users, vehicles and reservations,
    with the three enumerations they use. Text fields are strings, money is
    `real`, calendar dates are integer day numbers. */
module Domain {

  datatype Option<+T> = None | Some(value: T)

  /** The role names of `UserRole`. A stored user's role is a string that
      nothing checks, so the role field below is a plain string and
      `WellTyped` says when it is one of these three. */
  const Cliente: string := "cliente"
  const Funcionario: string := "funcionario"
  const Administrador: string := "administrador"

  datatype User = User(id: string, name: string, email: string, role: string)

  predicate WellTyped(u: User) {
    u.role == Cliente || u.role == Funcionario || u.role == Administrador
  }

  datatype VehicleStatus = Disponivel | Alugado | Manutencao

  datatype ReservationStatus = Pendente | Confirmada | Cancelada | Finalizada

  /** A vehicle as the staff page keeps it. `marca` stands for the
      attributes the edit form does not carry; the timestamps are opaque
      ISO strings. */
  datatype Vehicle = Vehicle(
    id: string,
    placa: string,
    modelo: string,
    marca: string,
    ano: int,
    cor: string,
    categoria: string,
    valorDiaria: real,
    status: VehicleStatus,
    caracteristicas: seq<string>,
    createdAt: string,
    updatedAt: string)

  /** A reservation; `startDay` and `endDay` are day numbers. */
  datatype Reservation = Reservation(
    id: string,
    userId: string,
    vehicleId: string,
    startDay: int,
    endDay: int,
    totalAmount: real,
    status: ReservationStatus)
}
