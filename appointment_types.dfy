/**
 The values the appointment controller works with: stored appointment
 records, the request payload of create/update, the caller's token, and the
 four errors the controller throws.
 */
module AppointmentTypes {

  /** Timestamps are only ever compared (`$gte` / `$lte`), so an ordered integer suffices. */
  type Time = int

  /** A user identifier (doctor or client), as carried in a token or a request. */
  type UserId = string

  /** The identifier the store assigns to an appointment on creation. */
  type AppId = nat

  datatype Option<T> = None | Some(value: T) {
    function GetOr(default: T): T {
      match this
      case Some(v) => v
      case None => default
    }
  }

  /** A stored appointment document. */
  datatype Appointment = Appointment(
    start: Time,
    end: Time,
    doctor: UserId,
    client: UserId,
    active: bool)

  /** A stored appointment together with the identifier the store gave it. */
  datatype Entry = Entry(id: AppId, appointment: Appointment)

  /**
   A bound handed to the listing: `undefined` (no value at all), the empty
   string, or a timestamp. The listing tells the first two apart.
   */
  datatype Bound = Undefined | Blank | At(t: Time)

  /** The bound a payload field gives when passed on: an absent field is `undefined`. */
  function ToBound(field: Option<Time>): (b: Bound)
    ensures b == Undefined <==> field.None?
    ensures b.At? ==> field == Some(b.t)
  {
    match field
    case None => Undefined
    case Some(t) => At(t)
  }

  /** A request payload: every field may be absent (`undefined`). */
  datatype Request = Request(
    start: Option<Time>,
    end: Option<Time>,
    doctor: Option<UserId>,
    client: Option<UserId>)

  /** The decoded token `{id, role}`; either property may be undefined. */
  datatype Token = Token(id: Option<UserId>, role: Option<string>)

  /**
   The four errors the controller throws, and the runtime TypeError raised
   when a property of `undefined` is read.
   */
  datatype Error = MissingData | NotAuthorized | NotFound | DuplicatedDate | TypeError

  datatype Result<T> = Ok(value: T) | Err(error: Error)

  const ADMIN: string := "ADMIN"

  /** `token.role === "ADMIN"` */
  predicate IsAdmin(token: Token) {
    token.role == Some(ADMIN)
  }

  /** JavaScript truthiness of an optional identifier: undefined and "" are falsy. */
  predicate Truthy(id: Option<UserId>) {
    id.Some? && id.value != ""
  }
}
