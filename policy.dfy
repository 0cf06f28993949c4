/** The role table that the five resource routes implement between them,
    written out as the guard clauses of the five route files actually behave, and
    the contract every route handler shares: 401 before anything else, 405
    for an unknown method, 403 exactly when the table (and, for a doctor,
    the ownership lookup) refuses, and otherwise an answer to the verb. */
module Policy {
  import opened Common

  datatype Resource = Patients | Doctors | Appointments | Prescriptions | Billing

  /** `Allow`: the operation proceeds. `FilterToOwn`: a list query that is
      restricted to the caller's rows when a doctor record matches the
      caller, and unrestricted otherwise. `IfOwner`: refused when a doctor
      record matches the caller but the target row is missing or belongs
      to another doctor; allowed when no doctor record matches. */
  datatype Rule = Deny | Allow | FilterToOwn | IfOwner

  function Capability(resource: Resource, verb: Verb, role: string): (rule: Rule)
    // every authenticated role may list every resource
    ensures verb == Get ==> rule != Deny
    // deleting is for admins only, on every resource
    ensures verb == Delete ==> (rule == Allow <==> role == ADMIN) && rule in {Allow, Deny}
    ensures verb == Unsupported ==> rule == Deny
    // ownership only ever restricts doctors, and only on appointments and prescriptions
    ensures rule in {FilterToOwn, IfOwner} ==> role == DOCTOR && resource in {Appointments, Prescriptions}
    ensures rule == FilterToOwn <==> verb == Get && role == DOCTOR && resource in {Appointments, Prescriptions}
    // admins may do everything
    ensures role == ADMIN && verb != Unsupported ==> rule == Allow
    // a receptionist is refused every appointment update and every prescription write
    ensures role == RECEPTIONIST && resource == Appointments && verb == Put ==> rule == Deny
    ensures role == RECEPTIONIST && resource == Prescriptions && verb != Get ==> rule == Deny
  {
    match verb
    case Unsupported => Deny
    case Delete => if role == ADMIN then Allow else Deny
    case Get =>
      if role == DOCTOR && resource in {Appointments, Prescriptions} then FilterToOwn else Allow
    case Post => (
      match resource
      case Patients => if role in {ADMIN, RECEPTIONIST} then Allow else Deny
      case Doctors => if role == ADMIN then Allow else Deny
      case Appointments => if role in {ADMIN, RECEPTIONIST} then Allow else Deny
      case Prescriptions =>
        if role == ADMIN then Allow else if role == DOCTOR then IfOwner else Deny
      case Billing => if role in {ADMIN, RECEPTIONIST} then Allow else Deny)
    case Put => (
      match resource
      case Patients => if role in {ADMIN, RECEPTIONIST} then Allow else Deny
      case Doctors => if role == ADMIN then Allow else Deny
      case Appointments =>
        if role == ADMIN then Allow else if role == DOCTOR then IfOwner else Deny
      case Prescriptions =>
        if role == ADMIN then Allow else if role == DOCTOR then IfOwner else Deny
      case Billing => if role in {ADMIN, RECEPTIONIST} then Allow else Deny)
  }

  /** Whether a rule lets the request through, given the doctor record
      matched by name and the doctor that owns the target row. */
  predicate Permits(rule: Rule, matched: Option<DoctorId>, owner: Option<DoctorId>) {
    match rule
    case Deny => false
    case Allow => true
    case FilterToOwn => true
    case IfOwner => matched.None? || owner == matched
  }

  /** The success response that belongs to each verb. */
  predicate Answers<C, U>(verb: Verb, resp: Response<C, U>) {
    match verb
    case Get => resp.Listed?
    case Post => resp.Created? || resp.BadRequest?
    case Put => resp.Updated?
    case Delete => resp.Deleted?
    case Unsupported => false
  }

  /** The authorization contract of a resource route. */
  ghost predicate Guarded<C, U>(resource: Resource, session: Option<Identity>, httpMethod: string,
                                matched: Option<DoctorId>, owner: Option<DoctorId>, resp: Response<C, U>)
  {
    var verb := ParseVerb(httpMethod);
    && (session.None? ==> resp == Unauthorized)
    && (session.Some? && verb == Unsupported ==> resp == MethodNotAllowed)
    && (session.Some? && verb != Unsupported ==>
          var allowed := Permits(Capability(resource, verb, session.value.role), matched, owner);
          && (resp.Forbidden? <==> !allowed)
          && (allowed ==> Answers(verb, resp)))
  }

  /** What a doctor whose name matches no Doctor record may do: the
      ownership checks fail open, so every rule that is not `Deny` admits
      the request whatever row it targets. */
  lemma UnmatchedDoctorFailsOpen(resource: Resource, verb: Verb, owner: Option<DoctorId>)
    ensures Permits(Capability(resource, verb, DOCTOR), None, owner) <==>
            (verb == Get || (resource in {Appointments, Prescriptions} && verb == Put)
                         || (resource == Prescriptions && verb == Post))
  {
  }

  /** A matched doctor is admitted to a row-level operation exactly on its own rows. */
  lemma MatchedDoctorOwnRowsOnly(resource: Resource, verb: Verb, d: DoctorId, owner: Option<DoctorId>)
    requires Capability(resource, verb, DOCTOR) == IfOwner
    ensures Permits(Capability(resource, verb, DOCTOR), Some(d), owner) <==> owner == Some(d)
  {
  }
}
