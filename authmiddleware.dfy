/** lib/auth-middleware.js: the bearer-token gate. `AuthenticatedUser`
    turns an `Authorization` header into an identity or nothing, failing
    closed at every step; `RequireAuth` answers 401, 403 or admits the
    caller and records the identity on the request. */
module AuthMiddleware {
  import opened Common
  import opened JsText

  const BEARER := "Bearer "

  /** The outcome of an awaited call into the token service or the users
      table: it threw, or it returned a value. */
  datatype Reply<T> = Threw | Returned(value: T)

  /** The account the token service finds for a token. */
  datatype TokenUser = TokenUser(id: string, email: string)

  /** `{ data: { user }, error }` from verifying a token. */
  datatype Verification = Verification(user: Option<TokenUser>, error: bool)

  /** The users-table row for an email. */
  datatype UserRecord = UserRecord(role: string, name: string)

  /** `{ data, error }` from the users-table lookup by email. */
  datatype UserLookup = UserLookup(data: Option<UserRecord>, error: bool)

  /** The bearer token carried by a header, if the header is a bearer header. */
  function TokenOf(header: Option<string>): (t: Option<string>)
    ensures t.None? <==> header.None? || !StartsWith(header.value, BEARER)
    ensures t.Some? ==> header.value == BEARER + t.value
  {
    if header.None? || header.value == "" || !StartsWith(header.value, BEARER) then None
    else
      StripPrefix(header.value, BEARER);
      Some(ReplaceFirst(header.value, BEARER, ""))
  }

  /** `getAuthenticatedUser(req)`, with the token service and the users
      table given as the answers they return. */
  function AuthenticatedUser(header: Option<string>, verify: string -> Reply<Verification>,
                             lookup: string -> Reply<UserLookup>): (r: Option<Identity>)
    // no header, or one that is not a bearer header: nobody
    ensures TokenOf(header).None? ==> r.None?
    // the token is checked, then the users row of the token's email is read; any failure is nobody
    ensures r.Some? ==>
              var token := TokenOf(header).value;
              verify(token).Returned? && !verify(token).value.error && verify(token).value.user.Some? &&
              var u := verify(token).value.user.value;
              lookup(u.email).Returned? && !lookup(u.email).value.error && lookup(u.email).value.data.Some? &&
              var row := lookup(u.email).value.data.value;
              // id and email from the token, role and name from the users row
              r.value == Identity(u.id, u.email, row.name, row.role)
    ensures TokenOf(header).Some? && verify(TokenOf(header).value).Threw? ==> r.None?
    ensures TokenOf(header).Some? && verify(TokenOf(header).value).Returned? &&
            verify(TokenOf(header).value).value.user.Some? && !verify(TokenOf(header).value).value.error ==>
              (r.Some? <==>
                 var email := verify(TokenOf(header).value).value.user.value.email;
                 lookup(email).Returned? && !lookup(email).value.error && lookup(email).value.data.Some?)
  {
    match TokenOf(header)
    case None => None
    case Some(token) =>
      match verify(token)
      case Threw => None
      case Returned(v) =>
        if v.error || v.user.None? then None
        else
          var user := v.user.value;
          match lookup(user.email)
          case Threw => None
          case Returned(res) =>
            if res.error || res.data.None? then None
            else Some(Identity(user.id, user.email, res.data.value.name, res.data.value.role))
  }

  datatype GateOutcome = Rejected401 | Rejected403 | Admitted(user: Identity)

  /** The decision of `requireAuth(roles)` for a resolved caller. */
  function Gate(user: Option<Identity>, roles: seq<string>): (g: GateOutcome)
    ensures user.None? <==> g == Rejected401
    ensures g == Rejected403 <==> user.Some? && |roles| > 0 && user.value.role !in roles
    ensures g.Admitted? ==> g.user == user.value
  {
    if user.None? then Rejected401
    else if |roles| > 0 && user.value.role !in roles then Rejected403
    else Admitted(user.value)
  }

  /** An empty role list admits every authenticated caller. */
  lemma EmptyRoleListAdmitsAll(user: Identity)
    ensures Gate(Some(user), []) == Admitted(user)
  {
  }

  /** Allowing more roles never turns an admitted caller away. */
  lemma WideningAdmits(user: Option<Identity>, roles: seq<string>, more: seq<string>)
    requires |roles| > 0 && Gate(user, roles).Admitted?
    ensures Gate(user, roles + more) == Gate(user, roles)
  {
  }

  /** The part of a request the middleware reads and writes. */
  class ApiRequest {
    const authorization: Option<string>
    var user: Option<Identity>

    constructor (authorization: Option<string>)
      ensures this.authorization == authorization && user.None?
    {
      this.authorization := authorization;
      user := None;
    }
  }

  /** The handler `requireAuth(roles)` returns, applied to one request.
      `hasNext` says whether a `next` callback was passed; `nextCalled`
      whether it was invoked. */
  method RequireAuth(roles: seq<string>, req: ApiRequest, verify: string -> Reply<Verification>,
                     lookup: string -> Reply<UserLookup>, hasNext: bool)
    returns (outcome: GateOutcome, nextCalled: bool)
    modifies req
    ensures outcome == Gate(AuthenticatedUser(req.authorization, verify, lookup), roles)
    ensures outcome.Admitted? ==> req.user == Some(outcome.user)
    ensures !outcome.Admitted? ==> req.user == old(req.user)
    ensures nextCalled <==> outcome.Admitted? && hasNext
  {
    var user := AuthenticatedUser(req.authorization, verify, lookup);
    nextCalled := false;
    if user.None? {
      return Rejected401, false;
    }
    if |roles| > 0 && user.value.role !in roles {
      return Rejected403, false;
    }
    req.user := user;
    if hasNext {
      nextCalled := true;
    }
    outcome := Admitted(user.value);
  }
}
