/** The /api/patients route: patient records are open to every signed-in
    role, written by admins and receptionists, removed by admins; the
    optional fields are stored as null when the body leaves them falsy. */
module PatientsApi {
  import opened Common
  import opened Policy

  /** The fields the route reads from a request body. */
  datatype PatientBody = PatientBody(
    name: Js, email: Js, phone: Js, address: Js, dateOfBirth: Js, gender: Js,
    bloodGroup: Js, emergencyContact: Js, medicalHistory: Js)

  /** The data written on create and on update; `dateOfBirth` is still the
      text handed to `new Date`. */
  datatype PatientData = PatientData(
    name: Js, email: Js, phone: Js, address: Js, dateOfBirth: Js, gender: Js,
    bloodGroup: Js, emergencyContact: Js, medicalHistory: Js)

  type PatientResponse = Response<PatientData, PatientData>

  const ROUTE_KEY := "patients"

  /** `email`, `bloodGroup` and `medicalHistory` become null unless truthy;
      every other field passes through unchanged. */
  function PatientDataOf(b: PatientBody): (d: PatientData)
    ensures d.email == (if Truthy(b.email) then b.email else Null)
    ensures d.bloodGroup == (if Truthy(b.bloodGroup) then b.bloodGroup else Null)
    ensures d.medicalHistory == (if Truthy(b.medicalHistory) then b.medicalHistory else Null)
    ensures d.name == b.name && d.phone == b.phone && d.address == b.address
    ensures d.dateOfBirth == b.dateOfBirth && d.gender == b.gender && d.emergencyContact == b.emergencyContact
  {
    PatientData(b.name, OrNull(b.email), b.phone, b.address, b.dateOfBirth, b.gender,
                OrNull(b.bloodGroup), b.emergencyContact, OrNull(b.medicalHistory))
  }

  function Handle(session: Option<Identity>, req: Request<PatientBody>): (resp: PatientResponse)
    ensures Guarded(Resource.Patients, session, req.httpMethod, None, None, resp)
    // the list is never filtered, and it is sent as { patients }
    ensures resp.Listed? ==> resp.filter.None? && resp.shape == WrappedAs(ROUTE_KEY)
    ensures resp.Created? ==> resp.record == PatientDataOf(req.body)
    ensures resp.Updated? ==> resp.id == req.id && resp.data == PatientDataOf(req.body)
    ensures resp.Deleted? ==> resp.id == req.id
    ensures !resp.BadRequest?
  {
    if session.None? then Unauthorized
    else
      var role := session.value.role;
      match ParseVerb(req.httpMethod)
      case Get => Listed(None, WrappedAs(ROUTE_KEY))
      case Post =>
        if role !in [ADMIN, RECEPTIONIST] then Forbidden(FORBIDDEN)
        else Created(PatientDataOf(req.body))
      case Put =>
        if role !in [ADMIN, RECEPTIONIST] then Forbidden(FORBIDDEN)
        else Updated(req.id, PatientDataOf(req.body))
      case Delete =>
        if role != ADMIN then Forbidden(FORBIDDEN) else Deleted(req.id)
      case Unsupported => MethodNotAllowed
  }

  /** Creating and updating store the same data for the same body: an
      update rewrites every field, null-normalising the same three. */
  lemma CreateAndUpdateWriteAlike(session: Option<Identity>, id: nat, body: PatientBody)
    requires session.Some? && session.value.role in {ADMIN, RECEPTIONIST}
    ensures Handle(session, Request("POST", id, body)).Created?
    ensures Handle(session, Request("PUT", id, body)).Updated?
    ensures Handle(session, Request("POST", id, body)).record == Handle(session, Request("PUT", id, body)).data
  {
  }

  /** Normalising twice is normalising once. */
  lemma NormalisationIsIdempotent(b: PatientBody)
    ensures var d := PatientDataOf(b);
            PatientDataOf(PatientBody(d.name, d.email, d.phone, d.address, d.dateOfBirth, d.gender,
                                      d.bloodGroup, d.emergencyContact, d.medicalHistory)) == d
  {
  }
}
