/** The /api/appointments route: who may list, book, update and cancel
    appointments, the doctor row filter, and the shape of an update. */
module AppointmentsApi {
  import opened Common
  import opened Policy

  /** The fields the route reads from a request body. */
  datatype AppointmentBody = AppointmentBody(patientId: nat, doctorId: nat, appointmentDate: Js, status: Js)

  /** The data of a booked appointment. */
  datatype NewAppointment = NewAppointment(patientId: nat, doctorId: nat, appointmentDate: Js, status: string)

  /** `updateData`: a present field is written, an absent one is left as stored. */
  datatype AppointmentUpdate = AppointmentUpdate(status: Option<string>, appointmentDate: Option<string>)

  type AppointmentResponse = Response<NewAppointment, AppointmentUpdate>

  /** The doctor that owns the row a request targets, where the guard looks
      one up: only an update targets a row. */
  function TargetOwner(req: Request<AppointmentBody>, dir: Directory): Option<DoctorId> {
    if ParseVerb(req.httpMethod) == Put then Lookup(dir.appointmentDoctor, req.id) else None
  }

  method Handle(session: Option<Identity>, req: Request<AppointmentBody>, dir: Directory)
    returns (resp: AppointmentResponse)
    ensures Guarded(Resource.Appointments, session, req.httpMethod, MatchedDoctor(session, dir), TargetOwner(req, dir), resp)
    ensures resp.Listed? ==> resp.filter == MatchedDoctor(session, dir) && resp.shape == Bare
    ensures resp.Created? ==> resp.record == NewAppointment(req.body.patientId, req.body.doctorId,
                                                            req.body.appointmentDate, "scheduled")
    ensures resp.Updated? ==> resp.id == req.id && session.Some? &&
                              UpdateShaped(session.value.role, req.body, resp.data)
    ensures resp.Deleted? ==> resp.id == req.id
    ensures !resp.BadRequest?
  {
    if session.None? {
      return Unauthorized;
    }
    match ParseVerb(req.httpMethod)
    case Get => resp := GetAppointments(session.value, dir);
    case Post => resp := CreateAppointment(session.value, req.body);
    case Put => resp := UpdateAppointment(session.value, req.id, req.body, dir);
    case Delete => resp := DeleteAppointment(session.value, req.id);
    case Unsupported => resp := MethodNotAllowed;
  }

  /** Doctors see the appointments of the doctor record that carries their
      name; everyone else, and a doctor that no record matches, sees all. */
  method GetAppointments(user: Identity, dir: Directory) returns (resp: AppointmentResponse)
    ensures resp.Listed? && resp.shape == Bare
    ensures resp.filter.Some? <==> user.role == DOCTOR && user.name in dir.doctorByName
    ensures resp.filter.Some? ==> resp.filter.value == dir.doctorByName[user.name]
  {
    var whereClause: Option<DoctorId> := None;
    if user.role == DOCTOR {
      var doctor := DoctorOf(user, dir);
      if doctor.Some? {
        whereClause := Some(doctor.value);
      }
    }
    resp := Listed(whereClause, Bare);
  }

  /** Only admins and receptionists book; a booking always starts as scheduled. */
  method CreateAppointment(user: Identity, body: AppointmentBody) returns (resp: AppointmentResponse)
    ensures resp.Forbidden? <==> user.role !in {ADMIN, RECEPTIONIST}
    ensures !resp.Forbidden? ==> resp.Created?
    ensures resp.Created? ==> resp.record.status == "scheduled" && resp.record.patientId == body.patientId
                              && resp.record.doctorId == body.doctorId
                              && resp.record.appointmentDate == body.appointmentDate
  {
    if user.role !in [ADMIN, RECEPTIONIST] {
      return Forbidden(FORBIDDEN);
    }
    resp := Created(NewAppointment(body.patientId, body.doctorId, body.appointmentDate, "scheduled"));
  }

  /** The update record: `status` when it is truthy, and `appointmentDate`
      when it is truthy and the caller is an admin; nothing else. */
  ghost predicate UpdateShaped(role: string, body: AppointmentBody, data: AppointmentUpdate) {
    && (data.status.Some? <==> Truthy(body.status))
    && (data.status.Some? ==> Str(data.status.value) == body.status)
    && (data.appointmentDate.Some? <==> Truthy(body.appointmentDate) && role == ADMIN)
    && (data.appointmentDate.Some? ==> Str(data.appointmentDate.value) == body.appointmentDate)
  }

  /** A doctor may update the appointments of the doctor record that carries
      their name; a doctor no record matches may update any appointment; an
      admin may update any; every other role, receptionists included, is
      refused. */
  method UpdateAppointment(user: Identity, id: nat, body: AppointmentBody, dir: Directory)
    returns (resp: AppointmentResponse)
    ensures resp.Forbidden? <==>
              if user.role == DOCTOR then
                user.name in dir.doctorByName &&
                (id !in dir.appointmentDoctor || dir.appointmentDoctor[id] != dir.doctorByName[user.name])
              else user.role != ADMIN
    ensures !resp.Forbidden? ==> resp.Updated? && resp.id == id && UpdateShaped(user.role, body, resp.data)
    // a doctor can change the status, never the date
    ensures resp.Updated? && user.role == DOCTOR ==> resp.data.appointmentDate.None?
  {
    if user.role == DOCTOR {
      var doctor := DoctorOf(user, dir);
      if doctor.Some? {
        var owned := id in dir.appointmentDoctor && dir.appointmentDoctor[id] == doctor.value;
        if !owned {
          return Forbidden(FORBIDDEN);
        }
      }
    } else if user.role != ADMIN {
      return Forbidden(FORBIDDEN);
    }
    var updateData := AppointmentUpdate(None, None);
    if Truthy(body.status) {
      updateData := updateData.(status := Some(body.status.s));
    }
    if Truthy(body.appointmentDate) && user.role == ADMIN {
      updateData := updateData.(appointmentDate := Some(body.appointmentDate.s));
    }
    resp := Updated(id, updateData);
  }

  /** Only admins cancel appointments. */
  method DeleteAppointment(user: Identity, id: nat) returns (resp: AppointmentResponse)
    ensures resp.Forbidden? <==> user.role != ADMIN
    ensures !resp.Forbidden? ==> resp == Deleted(id)
  {
    if user.role != ADMIN {
      return Forbidden(FORBIDDEN);
    }
    resp := Deleted(id);
  }
}
