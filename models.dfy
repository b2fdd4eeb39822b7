/** The records the application stores in its two tables, `clientes` and
    `viajes`, and the shapes it sends when creating or updating them.
    Optional properties (`?:` or `| null`) are `Option`s; a JavaScript
    `number` that the application treats as an integer is an `int`. */
module Models {
  import opened Wrappers

  /** A customer's shipment, one row of `clientes`. */
  datatype Cliente = Cliente(
    id: Option<int>,
    check: Option<string>,
    number: int,
    name: string,
    identity_card: Option<string>,
    destination: string,
    packages: int,
    family_name: Option<string>,
    phone: Option<int>,
    address: Option<string>,
    is_address: Option<bool>,
    description: Option<string>,
    delivered: bool,
    viaje_id: int)

  /** The body of a `clientes` insert. */
  datatype ClienteCreate = ClienteCreate(
    number: int,
    name: string,
    identity_card: Option<string>,
    destination: string,
    packages: int,
    family_name: Option<string>,
    phone: Option<int>,
    address: Option<string>,
    is_address: Option<bool>,
    description: Option<string>,
    delivered: Option<bool>,
    viaje_id: int)

  /** The body of a `clientes` PATCH: each column is left alone, cleared or set. */
  datatype ClienteUpdate = ClienteUpdate(
    check: Field<string>,
    number: Field<int>,
    name: Field<string>,
    identity_card: Field<string>,
    destination: Field<string>,
    packages: Field<int>,
    family_name: Field<string>,
    phone: Field<int>,
    address: Field<string>,
    is_address: Field<bool>,
    description: Field<string>,
    delivered: Field<bool>,
    viaje_id: Field<int>)

  const NoClienteChanges := ClienteUpdate(Omitted, Omitted, Omitted, Omitted, Omitted, Omitted,
                                          Omitted, Omitted, Omitted, Omitted, Omitted, Omitted, Omitted)

  /** A trip, one row of `viajes`. */
  datatype Viaje = Viaje(id: Option<int>, date: string, description: Option<string>)

  datatype ViajeCreate = ViajeCreate(date: string, description: Option<string>)

  datatype ViajeUpdate = ViajeUpdate(date: Field<string>, description: Field<string>)

  /** JavaScript truthiness of an optional string: present and non-empty. */
  predicate FilledText(s: Option<string>) {
    s.Some? && s.value != ""
  }

  /** JavaScript truthiness of an optional number: present and non-zero. */
  predicate FilledNumber(n: Option<int>) {
    n.Some? && n.value != 0
  }

  /** How a PATCH body changes one stored column. */
  function ApplyField<T>(stored: Option<T>, f: Field<T>): Option<T> {
    match f
    case Omitted => stored
    case Null => None
    case Present(v) => Some(v)
  }

  function ApplyRequired<T>(stored: T, f: Field<T>): T {
    if f.Present? then f.value else stored
  }

  /** The row the backend stores after applying the PATCH body `u` to row `s`. */
  function ApplyClienteUpdate(s: Cliente, u: ClienteUpdate): Cliente {
    Cliente(
      s.id,
      ApplyField(s.check, u.check),
      ApplyRequired(s.number, u.number),
      ApplyRequired(s.name, u.name),
      ApplyField(s.identity_card, u.identity_card),
      ApplyRequired(s.destination, u.destination),
      ApplyRequired(s.packages, u.packages),
      ApplyField(s.family_name, u.family_name),
      ApplyField(s.phone, u.phone),
      ApplyField(s.address, u.address),
      ApplyField(s.is_address, u.is_address),
      ApplyField(s.description, u.description),
      ApplyRequired(s.delivered, u.delivered),
      ApplyRequired(s.viaje_id, u.viaje_id))
  }

  function ApplyViajeUpdate(s: Viaje, u: ViajeUpdate): Viaje {
    Viaje(s.id, ApplyRequired(s.date, u.date), ApplyField(s.description, u.description))
  }
}
