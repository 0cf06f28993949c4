/** The /api/prescriptions route: who may list, write, change and remove
    prescriptions, and the doctor ownership checks through the
    prescription's appointment. */
module PrescriptionsApi {
  import opened Common
  import opened Policy

  /** The fields the route reads from a request body. */
  datatype PrescriptionBody = PrescriptionBody(appointmentId: nat, medicineName: Js, dosage: Js, duration: Js)

  datatype NewPrescription = NewPrescription(appointmentId: nat, medicineName: Js, dosage: Js, duration: Js)

  /** The update data: the three fields exactly as the body gives them (an
      `Undefined` one is left as stored). */
  datatype PrescriptionUpdate = PrescriptionUpdate(medicineName: Js, dosage: Js, duration: Js)

  type PrescriptionResponse = Response<NewPrescription, PrescriptionUpdate>

  const NOT_YOUR_APPOINTMENT := "Forbidden: Not your appointment"

  /** The doctor that owns the row the guard looks up: the appointment named
      in the body of a POST, the prescription's appointment for a PUT. */
  function TargetOwner(req: Request<PrescriptionBody>, dir: Directory): Option<DoctorId> {
    match ParseVerb(req.httpMethod)
    case Post => Lookup(dir.appointmentDoctor, req.body.appointmentId)
    case Put => Lookup(dir.prescriptionDoctor, req.id)
    case _ => None
  }

  method Handle(session: Option<Identity>, req: Request<PrescriptionBody>, dir: Directory)
    returns (resp: PrescriptionResponse)
    ensures Guarded(Resource.Prescriptions, session, req.httpMethod, MatchedDoctor(session, dir), TargetOwner(req, dir), resp)
    ensures resp.Listed? ==> resp.filter == MatchedDoctor(session, dir) && resp.shape == Bare
    ensures resp.Created? ==> resp.record == NewPrescription(req.body.appointmentId, req.body.medicineName,
                                                             req.body.dosage, req.body.duration)
    ensures resp.Updated? ==> resp.id == req.id && SetsExactlyBodyFields(req.body, resp.data)
    ensures resp.Deleted? ==> resp.id == req.id
    ensures !resp.BadRequest?
  {
    if session.None? {
      return Unauthorized;
    }
    match ParseVerb(req.httpMethod)
    case Get => resp := GetPrescriptions(session.value, dir);
    case Post => resp := CreatePrescription(session.value, req.body, dir);
    case Put => resp := UpdatePrescription(session.value, req.id, req.body, dir);
    case Delete => resp := DeletePrescription(session.value, req.id);
    case Unsupported => resp := MethodNotAllowed;
  }

  /** A matched doctor sees the prescriptions whose appointment is theirs
      (the filter is on `appointment.doctorId`); every other caller,
      receptionists and unmatched doctors included, sees all of them. */
  method GetPrescriptions(user: Identity, dir: Directory) returns (resp: PrescriptionResponse)
    ensures resp.Listed? && resp.shape == Bare
    ensures resp.filter.Some? <==> user.role == DOCTOR && user.name in dir.doctorByName
    ensures resp.filter.Some? ==> resp.filter.value == dir.doctorByName[user.name]
  {
    var whereClause: Option<DoctorId> := None;
    if user.role == DOCTOR {
      var doctor := DoctorOf(user, dir);
      if doctor.Some? {
        whereClause := Some(doctor.value);
      }
    }
    resp := Listed(whereClause, Bare);
  }

  /** Admins and doctors write prescriptions; a matched doctor only for one
      of their own appointments. Nothing is created when refused. */
  method CreatePrescription(user: Identity, body: PrescriptionBody, dir: Directory) returns (resp: PrescriptionResponse)
    ensures user.role !in {ADMIN, DOCTOR} ==> resp == Forbidden(FORBIDDEN)
    ensures user.role == DOCTOR && user.name in dir.doctorByName &&
            (body.appointmentId !in dir.appointmentDoctor ||
             dir.appointmentDoctor[body.appointmentId] != dir.doctorByName[user.name])
            ==> resp == Forbidden(NOT_YOUR_APPOINTMENT)
    ensures resp.Forbidden? || resp == Created(NewPrescription(body.appointmentId, body.medicineName, body.dosage, body.duration))
    ensures resp.Forbidden? <==>
              user.role !in {ADMIN, DOCTOR} ||
              (user.role == DOCTOR && user.name in dir.doctorByName &&
               Lookup(dir.appointmentDoctor, body.appointmentId) != Some(dir.doctorByName[user.name]))
  {
    if user.role !in [ADMIN, DOCTOR] {
      return Forbidden(FORBIDDEN);
    }
    if user.role == DOCTOR {
      var doctor := DoctorOf(user, dir);
      if doctor.Some? {
        var owned := body.appointmentId in dir.appointmentDoctor &&
                     dir.appointmentDoctor[body.appointmentId] == doctor.value;
        if !owned {
          return Forbidden(NOT_YOUR_APPOINTMENT);
        }
      }
    }
    resp := Created(NewPrescription(body.appointmentId, body.medicineName, body.dosage, body.duration));
  }

  /** The update data names `medicineName`, `dosage` and `duration`, each as
      the body gives it, and no other field. */
  ghost predicate SetsExactlyBodyFields(body: PrescriptionBody, data: PrescriptionUpdate) {
    data.medicineName == body.medicineName && data.dosage == body.dosage && data.duration == body.duration
  }

  /** Admins and doctors change prescriptions; a matched doctor only when the
      prescription exists and its appointment is theirs. */
  method UpdatePrescription(user: Identity, id: nat, body: PrescriptionBody, dir: Directory)
    returns (resp: PrescriptionResponse)
    ensures resp.Forbidden? <==>
              user.role !in {ADMIN, DOCTOR} ||
              (user.role == DOCTOR && user.name in dir.doctorByName &&
               Lookup(dir.prescriptionDoctor, id) != Some(dir.doctorByName[user.name]))
    ensures !resp.Forbidden? ==> resp.Updated? && resp.id == id && SetsExactlyBodyFields(body, resp.data)
  {
    if user.role !in [ADMIN, DOCTOR] {
      return Forbidden(FORBIDDEN);
    }
    if user.role == DOCTOR {
      var doctor := DoctorOf(user, dir);
      if doctor.Some? {
        var prescription := Lookup(dir.prescriptionDoctor, id);
        if prescription.None? || prescription.value != doctor.value {
          return Forbidden(FORBIDDEN);
        }
      }
    }
    resp := Updated(id, PrescriptionUpdate(body.medicineName, body.dosage, body.duration));
  }

  /** Only admins remove prescriptions. */
  method DeletePrescription(user: Identity, id: nat) returns (resp: PrescriptionResponse)
    ensures resp.Forbidden? <==> user.role != ADMIN
    ensures !resp.Forbidden? ==> resp == Deleted(id)
  {
    if user.role != ADMIN {
      return Forbidden(FORBIDDEN);
    }
    resp := Deleted(id);
  }
}
