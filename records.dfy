/** The user record of the remote service, as far as the dashboard reads it. */
module Records {
  import opened Remote

  datatype Address = Address(address: Option<string>, city: Option<string>)

  /** A user as returned by the service. Every field but `id` may be missing from a
      response, so each is optional; fields the dashboard never reads are left out. */
  datatype UserRecord = UserRecord(
    id: int,
    firstName: Option<string>,
    lastName: Option<string>,
    email: Option<string>,
    phone: Option<string>,
    address: Option<Address>,
    gender: Option<string>)
}
