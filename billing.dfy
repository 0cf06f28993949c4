/** The /api/billing route: bills are open to every signed-in role, written
    by admins and receptionists and removed by admins; a new bill defaults
    to pending, and an update names only the fields the body supplies. */
module BillingApi {
  import opened Common
  import opened Policy

  /** The fields the route reads from a request body; `amount` is `None`
      when the body has no `amount` key. */
  datatype BillBody = BillBody(patientId: nat, amount: Option<int>, paymentStatus: Js)

  /** The data of a new bill; `billDate` is the clock reading at creation
      and `amount` is `None` when the body has none. */
  datatype NewBill = NewBill(patientId: nat, amount: Option<int>, paymentStatus: Js, billDate: string)

  /** `updateData`: a present field is written, an absent one is left as stored. */
  datatype BillUpdate = BillUpdate(amount: Option<int>, paymentStatus: Option<string>)

  type BillResponse = Response<NewBill, BillUpdate>

  const PENDING := "pending"

  method Handle(session: Option<Identity>, req: Request<BillBody>, now: string) returns (resp: BillResponse)
    ensures Guarded(Resource.Billing, session, req.httpMethod, None, None, resp)
    ensures resp.Listed? ==> resp.filter.None? && resp.shape == Bare
    ensures resp.Created? ==> resp.record == NewBill(req.body.patientId, req.body.amount,
                                                     OrElse(req.body.paymentStatus, PENDING), now)
    ensures resp.Updated? ==> resp.id == req.id && UpdateShaped(req.body, resp.data)
    ensures resp.Deleted? ==> resp.id == req.id
    ensures !resp.BadRequest?
  {
    if session.None? {
      return Unauthorized;
    }
    var role := session.value.role;
    match ParseVerb(req.httpMethod)
    case Get => resp := Listed(None, Bare);
    case Post => resp := CreateBill(role, req.body, now);
    case Put => resp := UpdateBill(role, req.id, req.body);
    case Delete => resp := if role != ADMIN then Forbidden(FORBIDDEN) else Deleted(req.id);
    case Unsupported => resp := MethodNotAllowed;
  }

  /** Admins and receptionists create bills; a bill without a truthy
      payment status is pending, and it is dated by the clock. */
  method CreateBill(role: string, body: BillBody, now: string) returns (resp: BillResponse)
    ensures resp.Forbidden? <==> role !in {ADMIN, RECEPTIONIST}
    ensures !resp.Forbidden? ==> resp.Created?
    ensures resp.Created? ==> resp.record.patientId == body.patientId && resp.record.amount == body.amount
                              && resp.record.billDate == now
                              && (Truthy(body.paymentStatus) ==> resp.record.paymentStatus == body.paymentStatus)
                              && (!Truthy(body.paymentStatus) ==> resp.record.paymentStatus == Str(PENDING))
    ensures resp.Created? ==> resp.record == NewBill(body.patientId, body.amount, OrElse(body.paymentStatus, PENDING), now)
  {
    if role !in [ADMIN, RECEPTIONIST] {
      return Forbidden(FORBIDDEN);
    }
    resp := Created(NewBill(body.patientId, body.amount, OrElse(body.paymentStatus, PENDING), now));
  }

  /** The update record holds `amount` exactly when the body has one and
      `paymentStatus` exactly when it is truthy. */
  ghost predicate UpdateShaped(body: BillBody, data: BillUpdate) {
    && data.amount == body.amount
    && (data.paymentStatus.Some? <==> Truthy(body.paymentStatus))
    && (data.paymentStatus.Some? ==> Str(data.paymentStatus.value) == body.paymentStatus)
  }

  /** Admins and receptionists update bills. */
  method UpdateBill(role: string, id: nat, body: BillBody) returns (resp: BillResponse)
    ensures resp.Forbidden? <==> role !in {ADMIN, RECEPTIONIST}
    ensures !resp.Forbidden? ==> resp.Updated? && resp.id == id && UpdateShaped(body, resp.data)
    // with neither field supplied the update record is empty
    ensures resp.Updated? && body.amount.None? && !Truthy(body.paymentStatus) ==> resp.data == BillUpdate(None, None)
  {
    if role !in [ADMIN, RECEPTIONIST] {
      return Forbidden(FORBIDDEN);
    }
    var updateData := BillUpdate(None, None);
    if body.amount.Some? {
      updateData := updateData.(amount := Some(body.amount.value));
    }
    if Truthy(body.paymentStatus) {
      updateData := updateData.(paymentStatus := Some(body.paymentStatus.s));
    }
    resp := Updated(id, updateData);
  }
}
