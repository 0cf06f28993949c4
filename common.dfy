/** Values shared by every API route of the hospital management system: the
    session identity, the HTTP verb, the JavaScript values a request body
    can carry, the answers of the store lookups the guards depend on, and
    the response a handler produces. */
module Common {

  datatype Option<+T> = None | Some(value: T)

  /** The value stored under `k`, if any: a lookup by primary key. */
  function Lookup<K, V>(m: map<K, V>, k: K): Option<V>
  {
    if k in m then Some(m[k]) else None
  }

  /** A scalar field of a JSON request body as JavaScript sees it: missing
      (`undefined`), `null`, or a string. */
  datatype Js = Undefined | Null | Str(s: string)

  /** JavaScript truthiness of such a field: only a non-empty string is truthy. */
  predicate Truthy(v: Js) {
    v.Str? && v.s != ""
  }

  /** `v || null` */
  function OrNull(v: Js): Js
  {
    if Truthy(v) then v else Null
  }

  /** `v || fallback` */
  function OrElse(v: Js, fallback: string): Js
  {
    if Truthy(v) then v else Str(fallback)
  }

  const FORBIDDEN := "Forbidden"

  /** The three role names the application hands out. A session role is a
      free string; these are the only values the guards compare it with. */
  const ADMIN := "admin"
  const DOCTOR := "doctor"
  const RECEPTIONIST := "receptionist"

  /** `session.user` as the session provider presents it. */
  datatype Identity = Identity(id: string, email: string, name: string, role: string)

  /** The HTTP methods the resource handlers dispatch on. */
  datatype Verb = Get | Post | Put | Delete | Unsupported

  function ParseVerb(httpMethod: string): (v: Verb)
    ensures v == Get <==> httpMethod == "GET"
    ensures v == Post <==> httpMethod == "POST"
    ensures v == Put <==> httpMethod == "PUT"
    ensures v == Delete <==> httpMethod == "DELETE"
  {
    if httpMethod == "GET" then Get
    else if httpMethod == "POST" then Post
    else if httpMethod == "PUT" then Put
    else if httpMethod == "DELETE" then Delete
    else Unsupported
  }

  /** A request to a resource route: its method, the `id` query parameter
      (already an integer) and its parsed body. */
  datatype Request<B> = Request(httpMethod: string, id: nat, body: B)

  type DoctorId = nat

  /** The answers the store gives to the lookups the handlers make before
      they decide. */
  datatype Directory = Directory(
    doctorByName: map<string, DoctorId>,     // doctor.findFirst({ where: { name } }).id
    appointmentDoctor: map<nat, DoctorId>,   // appointment id -> its doctorId
    prescriptionDoctor: map<nat, DoctorId>,  // prescription id -> doctorId of its appointment
    doctorEmails: set<string>,               // emails of existing doctors
    userEmails: set<string>)                 // emails of existing users

  /** The doctor record whose name equals the session user's name. */
  function DoctorOf(user: Identity, dir: Directory): Option<DoctorId>
  {
    Lookup(dir.doctorByName, user.name)
  }

  /** The doctor record a session resolves to; only doctors are looked up. */
  function MatchedDoctor(session: Option<Identity>, dir: Directory): Option<DoctorId>
  {
    if session.Some? && session.value.role == DOCTOR then DoctorOf(session.value, dir) else None
  }

  /** A GET answer is either the bare JSON array of rows or an object that
      holds the array under one key. */
  datatype ListShape = Bare | WrappedAs(key: string)

  /** What a handler sends back. `Listed` says which row filter the query
      used (`None` is the empty where clause) and how the rows are wrapped;
      `Created` and `Updated` carry the data handed to the store. */
  datatype Response<C, U> =
    | Unauthorized                               // 401 { message: 'Unauthorized' }
    | Forbidden(message: string)                 // 403 { message }
    | MethodNotAllowed                           // 405 { message: 'Method not allowed' }
    | BadRequest(message: string)                // 400 { message }
    | Listed(filter: Option<DoctorId>, shape: ListShape)  // 200
    | Created(record: C)                         // 201
    | Updated(id: nat, data: U)                  // 200
    | Deleted(id: nat)                           // 200
  {
    function Status(): (code: nat)
      ensures code == 401 <==> this == Unauthorized
      ensures code == 403 <==> Forbidden?
      ensures code == 405 <==> this == MethodNotAllowed
      ensures code == 400 <==> BadRequest?
      ensures code == 201 <==> Created?
      ensures code == 200 <==> Listed? || Updated? || Deleted?
    {
      match this
      case Unauthorized => 401
      case Forbidden(_) => 403
      case MethodNotAllowed => 405
      case BadRequest(_) => 400
      case Listed(_, _) => 200
      case Created(_) => 201
      case Updated(_, _) => 200
      case Deleted(_) => 200
    }
  }
}
