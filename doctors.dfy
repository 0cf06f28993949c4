/** The /api/doctors route: the doctor directory is open to every signed-in
    role and changed by admins only; a new doctor's email must be unused. */
module DoctorsApi {
  import opened Common
  import opened Policy

  /** The fields the route reads from a request body. The create path reads
      `specialization`, the update path reads `specialty`. */
  datatype DoctorBody = DoctorBody(
    name: Js, email: Js, specialization: Js, phone: Js, experience: int, qualification: Js, specialty: Js)

  datatype NewDoctor = NewDoctor(
    name: Js, email: Js, specialization: Js, phone: Js, experience: int, qualification: Js)

  /** The update data: `{ name, specialty, phone }` and nothing else. */
  datatype DoctorUpdate = DoctorUpdate(name: Js, specialty: Js, phone: Js)

  type DoctorResponse = Response<NewDoctor, DoctorUpdate>

  const DUPLICATE_EMAIL := "Doctor with this email already exists"

  /** `doctor.findUnique({ where: { email } })` found a row. */
  predicate EmailTaken(body: DoctorBody, dir: Directory) {
    body.email.Str? && body.email.s in dir.doctorEmails
  }

  function Handle(session: Option<Identity>, req: Request<DoctorBody>, dir: Directory): (resp: DoctorResponse)
    ensures Guarded(Resource.Doctors, session, req.httpMethod, None, None, resp)
    ensures resp.Listed? ==> resp.filter.None? && resp.shape == Bare
    // an admin's POST is refused with 400 exactly when the email is taken, and then nothing is created
    ensures session.Some? && session.value.role == ADMIN && req.httpMethod == "POST" ==>
              (resp == BadRequest(DUPLICATE_EMAIL) <==> EmailTaken(req.body, dir)) &&
              (resp.Created? <==> !EmailTaken(req.body, dir))
    ensures resp.BadRequest? ==> resp.message == DUPLICATE_EMAIL && EmailTaken(req.body, dir)
    ensures resp.Created? ==> !EmailTaken(req.body, dir) &&
                              resp.record == NewDoctor(req.body.name, req.body.email, req.body.specialization,
                                                       req.body.phone, req.body.experience, req.body.qualification)
    ensures resp.Updated? ==> resp.id == req.id &&
                              resp.data == DoctorUpdate(req.body.name, req.body.specialty, req.body.phone)
    ensures resp.Deleted? ==> resp.id == req.id
  {
    if session.None? then Unauthorized
    else
      var admin := session.value.role == ADMIN;
      var b := req.body;
      match ParseVerb(req.httpMethod)
      case Get => Listed(None, Bare)
      case Post =>
        if !admin then Forbidden(FORBIDDEN)
        else if EmailTaken(b, dir) then BadRequest(DUPLICATE_EMAIL)
        else Created(NewDoctor(b.name, b.email, b.specialization, b.phone, b.experience, b.qualification))
      case Put =>
        if !admin then Forbidden(FORBIDDEN) else Updated(req.id, DoctorUpdate(b.name, b.specialty, b.phone))
      case Delete =>
        if !admin then Forbidden(FORBIDDEN) else Deleted(req.id)
      case Unsupported => MethodNotAllowed
  }
}
