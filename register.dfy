/** /api/auth/register: an admin creates a user account. The checks run in
    a fixed order (method, admin session, required fields, role, unused
    email) and the first that fails decides the answer. */
module RegisterApi {
  import opened Common

  datatype RegisterBody = RegisterBody(name: Js, email: Js, password: Js, role: Js)

  /** The row written to the users table; `passwordHash` is what the hash
      function returned for the submitted password. */
  datatype UserRow = UserRow(name: string, email: string, passwordHash: string, role: string)

  /** The `select` of the created row that is sent back: no password. */
  datatype PublicUser = PublicUser(name: string, email: string, role: string)

  datatype Registration = Registration(stored: UserRow, returned: PublicUser)

  type RegisterResponse = Response<Registration, ()>

  const ALL_FIELDS_REQUIRED := "All fields are required"
  const INVALID_ROLE := "Invalid role"
  const USER_EXISTS := "User already exists"

  predicate IsAdminSession(session: Option<Identity>) {
    session.Some? && session.value.role == ADMIN
  }

  predicate FieldsPresent(b: RegisterBody) {
    Truthy(b.name) && Truthy(b.email) && Truthy(b.password) && Truthy(b.role)
  }

  predicate KnownRole(b: RegisterBody) {
    b.role.Str? && b.role.s in [ADMIN, DOCTOR, RECEPTIONIST]
  }

  /** The password never leaves the handler. */
  function Public(u: UserRow): (p: PublicUser)
    ensures p.name == u.name && p.email == u.email && p.role == u.role
  {
    PublicUser(u.name, u.email, u.role)
  }

  function Register(httpMethod: string, session: Option<Identity>, body: RegisterBody,
                    dir: Directory, hashed: string): (resp: RegisterResponse)
    ensures httpMethod != "POST" ==> resp == MethodNotAllowed
    // no session is 403 here, never 401
    ensures !resp.Unauthorized?
    ensures httpMethod == "POST" && !IsAdminSession(session) ==> resp == Forbidden(FORBIDDEN)
    ensures httpMethod == "POST" && IsAdminSession(session) && !FieldsPresent(body) ==>
              resp == BadRequest(ALL_FIELDS_REQUIRED)
    ensures httpMethod == "POST" && IsAdminSession(session) && FieldsPresent(body) && !KnownRole(body) ==>
              resp == BadRequest(INVALID_ROLE)
    ensures (httpMethod == "POST" && IsAdminSession(session) && FieldsPresent(body) && KnownRole(body)
             && body.email.s in dir.userEmails) ==> resp == BadRequest(USER_EXISTS)
    // a user is created exactly when every check passes
    ensures resp.Created? <==> httpMethod == "POST" && IsAdminSession(session) && FieldsPresent(body)
                               && KnownRole(body) && body.email.s !in dir.userEmails
    ensures resp.Created? ==>
              resp.record.stored == UserRow(body.name.s, body.email.s, hashed, body.role.s) &&
              resp.record.returned == PublicUser(body.name.s, body.email.s, body.role.s) &&
              resp.Status() == 201
  {
    if httpMethod != "POST" then MethodNotAllowed
    else if !IsAdminSession(session) then Forbidden(FORBIDDEN)
    else if !FieldsPresent(body) then BadRequest(ALL_FIELDS_REQUIRED)
    else if !KnownRole(body) then BadRequest(INVALID_ROLE)
    else if body.email.s in dir.userEmails then BadRequest(USER_EXISTS)
    else
      var user := UserRow(body.name.s, body.email.s, hashed, body.role.s);
      Created(Registration(user, Public(user)))
  }
}
