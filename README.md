# Hospital management authorization — a Dafny model

This project models the authorization core of a Next.js hospital
management application. Three roles use it: admin, doctor and
receptionist. It stores patients, doctors, appointments, prescriptions and
bills. The model covers:

- the five resource routes under `pages/api/`. For each one it models the
  session gate (401), the method dispatch (405), the role checks (403),
  the doctor ownership checks, the row filter a doctor's list query uses,
  and the record each write hands to the store;
- the admin-only user registration route;
- the bearer-token middleware, which resolves a caller and admits or
  rejects them;
- two client pages: the medication-list editor of the "new prescription"
  form, and the billing list page (totals by status, search, status
  filter, colours and icons).

Every resource route's behaviour is also checked against one role table,
`Policy.Capability`. The shared predicate `Policy.Guarded` states the
authorization contract each resource handler meets:

- no session gives 401, before anything else;
- an unknown method gives 405;
- the answer is 403 exactly when the table, together with the ownership
  lookup, refuses;
- otherwise the answer belongs to the verb.

Five points of the code's behaviour matter for that contract, and the
model keeps each as the code has it:

- **Ownership fails open.** A doctor whose name matches no `Doctor` record
  is not restricted. The ownership checks run only when a record is found
  (pages/api/appointments.js:102, pages/api/prescriptions.js:83 and 133).
  Such a doctor lists every appointment and prescription, and may update
  or prescribe for any of them (`Policy.UnmatchedDoctorFailsOpen`). A
  stricter rule would refuse such a doctor; the code admits them.
- **Doctors are matched by name.** The code finds a doctor's record by the
  session user's name (`findFirst({ where: { name } })`), not by email.
- **Receptionists cannot update appointments.** `updateAppointment` admits
  only doctors and admins (pages/api/appointments.js:96-113).
- **A doctor's prescription is checked through its appointment.** On
  create, the appointment named in the body must belong to the doctor
  (pages/api/prescriptions.js:84-90). No doctor id in the body is
  compared.
- **Registration without a session gives 403, not 401**
  (pages/api/auth/register.js:16-18).

Store lookups are a `Directory` value holding the answers the handlers
would get back. The session, the token service, the users table and the
clock are parameters.

## Model

| member | source | states |
|---|---|---|
| Policy.Capability | pages/api/appointments.js:62-153 | The role checks of all five resource routes: pages/api/appointments.js:62-153, pages/api/prescriptions.js:68-189, pages/api/patients.js:46-145, pages/api/doctors.js:45-123 and pages/api/billing.js:45-117. Every role may list every resource. Only admins delete. Ownership rules apply only to doctors, and only on appointments and prescriptions. Admins may do everything. Receptionists are refused appointment updates and all prescription writes. |
| Policy.UnmatchedDoctorFailsOpen | pages/api/appointments.js:90-112 | A doctor whose name matches no record is admitted to exactly the list queries, the appointment and prescription updates, and prescription creation, whatever row they target. |
| Policy.MatchedDoctorOwnRowsOnly | pages/api/prescriptions.js:77-92 | Where ownership applies, a matched doctor is admitted exactly when the target row belongs to them. |
| Common.ParseVerb | pages/api/appointments.js:14-25 | Each of GET, POST, PUT and DELETE is recognised exactly by its own string; anything else is unsupported. |
| Common.Response.Status | pages/api/appointments.js:11-84 | The status codes sent at appointments.js:11 (401), 24 (405), 56 (200), 65 (403) and 84 (201), and at pages/api/doctors.js:60 (400): 401 only for Unauthorized, 403 only for Forbidden, 405 only for MethodNotAllowed, 400 only for BadRequest, 201 only for Created, 200 for list, update and delete. |
| AppointmentsApi.Handle | pages/api/appointments.js:7-26 | The shared authorization contract, with ownership looked up for updates. The list is filtered to the matched doctor. A booking is the body's patient, doctor and date with status "scheduled". An update is shaped by the caller's role. |
| AppointmentsApi.GetAppointments | pages/api/appointments.js:28-60 | The list is filtered exactly when the caller is a doctor whose name matches a record, and then to that record. |
| AppointmentsApi.CreateAppointment | pages/api/appointments.js:62-88 | 403 exactly for roles other than admin and receptionist. Otherwise the body's patient, doctor and date are booked with status "scheduled". |
| AppointmentsApi.UpdateAppointment | pages/api/appointments.js:90-134 | 403 exactly when the caller is a matched doctor and the appointment is missing or another doctor's, or the caller is neither doctor nor admin. The update sets status when it is truthy, and the date only when it is truthy and the caller is an admin. A doctor never changes the date. |
| AppointmentsApi.DeleteAppointment | pages/api/appointments.js:136-153 | 403 exactly for non-admins; otherwise the given id is deleted. |
| PrescriptionsApi.Handle | pages/api/prescriptions.js:7-26 | The shared authorization contract, with ownership taken from the body's appointment on create and the prescription's appointment on update. The list is filtered to the matched doctor. Writes carry exactly the body's fields. |
| PrescriptionsApi.GetPrescriptions | pages/api/prescriptions.js:28-66 | The list is filtered exactly when the caller is a matched doctor, and then to that doctor's appointments. |
| PrescriptionsApi.CreatePrescription | pages/api/prescriptions.js:68-115 | 403 "Forbidden" for roles other than admin and doctor. 403 "Forbidden: Not your appointment" for a matched doctor whose appointment is missing or another doctor's. Otherwise the body's fields are created. Both directions are stated. |
| PrescriptionsApi.UpdatePrescription | pages/api/prescriptions.js:117-170 | 403 exactly for roles other than admin and doctor, or for a matched doctor when the prescription is missing or belongs to another doctor's appointment. Otherwise the update carries exactly medicineName, dosage and duration. |
| PrescriptionsApi.DeletePrescription | pages/api/prescriptions.js:172-189 | 403 exactly for non-admins; otherwise the given id is deleted. |
| PatientsApi.PatientDataOf | pages/api/patients.js:65-77 | email, bloodGroup and medicalHistory become null unless truthy; the other six fields pass through unchanged. |
| PatientsApi.Handle | pages/api/patients.js:7-145 | The shared authorization contract with no ownership. The list is unfiltered and sent under the key `patients`. Create and update both write the normalised body. The route never answers 400. |
| PatientsApi.CreateAndUpdateWriteAlike | pages/api/patients.js:86-126 | For an admin or receptionist, creating and updating with the same body store the same data. |
| PatientsApi.NormalisationIsIdempotent | pages/api/patients.js:65-77 | Normalising stored data again changes nothing. |
| DoctorsApi.EmailTaken | pages/api/doctors.js:55-61 | The duplicate-email test; DoctorsApi.Handle states that an admin's create is refused exactly when it holds. |
| DoctorsApi.Handle | pages/api/doctors.js:7-123 | The shared authorization contract. An admin's create is answered 400 "Doctor with this email already exists" exactly when the email is taken, and creates the doctor exactly when it is not, with the body's name, email, specialization, phone, experience and qualification. An update carries exactly name, specialty and phone. |
| BillingApi.Handle | pages/api/billing.js:7-43 | The shared authorization contract with no ownership. The list is an unfiltered bare array. A new bill is the body's patient and amount, the body's status or "pending", and the clock's date. An update holds only the supplied fields. Deletion is admin-only. |
| BillingApi.CreateBill | pages/api/billing.js:45-70 | 403 exactly for roles other than admin and receptionist. A created bill has the body's patient and amount, is dated by the clock, and is "pending" unless the body gives a truthy status. |
| BillingApi.UpdateBill | pages/api/billing.js:72-98 | 403 exactly for roles other than admin and receptionist. The update holds the amount exactly when the body has one, and the status exactly when it is truthy. With neither field it is empty. |
| RegisterApi.FieldsPresent | pages/api/auth/register.js:23-25 | The required-fields test; RegisterApi.Register states where it decides the answer. |
| RegisterApi.KnownRole | pages/api/auth/register.js:27-29 | The role test; RegisterApi.Register states where it decides the answer. |
| RegisterApi.Public | pages/api/auth/register.js:51-57 | The returned user has the stored name, email and role and no password. |
| RegisterApi.Register | pages/api/auth/register.js:8-65 | The checks run in order: 405 unless POST, then 403 without an admin session (never 401), then 400 for a missing field, then 400 for an unknown role, then 400 when the email exists. A user is created exactly when all checks pass, stored with the hash and returned without it, with status 201. |
| AuthMiddleware.TokenOf | lib/auth-middleware.js:6-11 | There is a token exactly when the header is present and starts with "Bearer ". The header is then "Bearer " followed by the token. |
| AuthMiddleware.AuthenticatedUser | lib/auth-middleware.js:4-36 | Fails closed. A caller is resolved only when the bearer token verifies without error and the users row for the token's email is found without error. The identity takes id and email from the token, and name and role from the row. Either failure, or a thrown call, gives nobody. |
| AuthMiddleware.Gate | lib/auth-middleware.js:40-48 | 401 exactly when there is no caller. 403 exactly when the role list is non-empty and lacks the caller's role. Otherwise the caller is admitted. |
| AuthMiddleware.WideningAdmits | lib/auth-middleware.js:46-48 | Adding roles to a non-empty list never turns an admitted caller away. |
| AuthMiddleware.EmptyRoleListAdmitsAll | lib/auth-middleware.js:38 | The default empty role list admits every authenticated caller. |
| AuthMiddleware.RequireAuth | lib/auth-middleware.js:38-54 | The outcome is the gate's decision for the resolved caller. Only an admitted caller is recorded on the request; otherwise `req.user` is unchanged. `next` is called exactly when the caller is admitted and a callback was given. |
| JsText.Trim | pages/prescriptions/add.js:76 | `trim`; JsText.TrimEmptyIffBlank states when its result is empty. |
| JsText.Lower | pages/billing/index.js:169-170 | `toLowerCase` on A to Z: the same length, each character lowered. |
| JsText.DecimalString | pages/billing/index.js:170 | `id.toString()`: non-empty, digits only, and without a leading zero. JsText.DecimalRoundTrip states that it denotes the id again. |
| JsText.TrimEmptyIffBlank | pages/prescriptions/add.js:76 | `s.trim()` is empty exactly when every character of `s` is ECMAScript white space. |
| JsText.IncludesAt | pages/billing/index.js:169-170 | `s.includes(t)` holds exactly when `t` occurs at some position of `s`. |
| JsText.DecimalRoundTrip | pages/billing/index.js:170 | The decimal string of an id denotes that id: `toString` loses nothing. |
| JsText.DecimalMatchNeedsDigits | pages/billing/index.js:170 | A term containing a non-digit never occurs in an id's decimal string. |
| JsText.StripPrefix | lib/auth-middleware.js:11 | Replacing the first "Bearer " of a header that starts with it leaves the rest of the header. |
| JsText.IndexFrom | lib/auth-middleware.js:11 | The result is the first position at or after the start where the pattern occurs, or -1 when there is none. |
| Lists.Filter | pages/billing/index.js:168-173 | `filter`: no longer than its input, every kept element passes, and every kept element comes from the input. |
| Lists.FilterIsSubsequence | pages/billing/index.js:168-173 | `filter` keeps an order-preserving sublist of its input. |
| Lists.FilterMembership | pages/billing/index.js:168-173 | An element is kept exactly when it is in the input and passes the predicate. |
| Lists.FilterCounts | pages/prescriptions/add.js:76 | `filter` keeps each passing value exactly as many times as it occurs, and drops every failing one. |
| Lists.FilterEmpty | pages/prescriptions/add.js:76-77 | The filter's result is empty exactly when no element passes. |
| Lists.DropIndex | pages/prescriptions/add.js:66 | `filter((_, i) => i !== index)` removes exactly the element at a valid index, keeps the others in order, and is the identity for any other index. |
| Lists.DropIndexIsSubsequence | pages/prescriptions/add.js:66 | Dropping a position keeps the remaining elements in order. |
| PrescriptionForm.WithField | pages/prescriptions/add.js:56 | Writing one field of a row sets that field and leaves the other four as they were. |
| PrescriptionForm.IsComplete | pages/prescriptions/add.js:76 | The submit filter's test; PrescriptionForm.NothingToSubmit states it in terms of white space. |
| PrescriptionForm.CompleteEntries | pages/prescriptions/add.js:76 | `validMedications`; PrescriptionForm.CompleteEntriesExactly states which rows it keeps, in which order and how often. |
| PrescriptionForm.CompleteEntriesExactly | pages/prescriptions/add.js:76 | The submitted medications are an order-preserving sublist of the rows. A row is among them exactly when its trimmed name and trimmed dosage are both non-empty. Each complete row is submitted as many times as it occurs, and an incomplete one never is. |
| PrescriptionForm.NothingToSubmit | pages/prescriptions/add.js:76-81 | Submission is aborted exactly when every row has a white-space-only name or a white-space-only dosage. |
| PrescriptionForm.Removed | pages/prescriptions/add.js:64-69 | With more than one row, removing drops the given position; with a single row, nothing changes; at least one row always remains. |
| PrescriptionForm.RemovedIsSubsequence | pages/prescriptions/add.js:64-69 | Removing keeps the other rows in their order. |
| PrescriptionForm.PageAccess | pages/prescriptions/add.js:22-33 | The form is shown exactly to signed-in admins and doctors. A signed-out caller goes to the login page. A loading session shows the loading view. Every other role goes home. |
| PrescriptionForm.Medication.Set | pages/prescriptions/add.js:54-58 | Writing a field of a row object in place changes that field of its value and no other. |
| PrescriptionForm.Form.constructor | pages/prescriptions/add.js:11 | The form starts with one blank row. |
| PrescriptionForm.Form.AddMedication | pages/prescriptions/add.js:60-62 | One blank row is appended and the existing rows are unchanged. |
| PrescriptionForm.Form.RemoveMedication | pages/prescriptions/add.js:64-69 | The rows become the removal of the given index from the old rows. The form stays valid, so at least one row remains. |
| PrescriptionForm.Form.HandleMedicationChange | pages/prescriptions/add.js:54-58 | The row object at `index` is written in place. The list keeps the same objects, and every other row and every other field keep their values. |
| PrescriptionForm.Form.Submit | pages/prescriptions/add.js:71-88 | Submission aborts exactly when no row is complete. Otherwise it posts exactly the complete rows. |
| BillingPage.StatsOf | pages/billing/index.js:155-158 | The four totals of `fetchBills`; BillingPage.StatsPartition, AppendedBillCountsInItsStatus and OtherStatusCountsOnlyInTotal state their properties. |
| BillingPage.MatchesSearch | pages/billing/index.js:169-170 | The search test; BillingPage.NoPatientNeedsDigitTerm and NoCriteriaShowsAll state its properties. |
| BillingPage.MatchesStatus | pages/billing/index.js:171 | The status test; BillingPage.FilteredBillsHaveStatus states that a chosen status is the status of every shown bill. |
| BillingPage.FilteredBills | pages/billing/index.js:168-173 | `filteredBills`; BillingPage.FilteredBillsExactly states which bills it keeps, in which order and how often. |
| BillingPage.SumAmountsConcat | pages/billing/index.js:155 | The sum of the amounts of two lists joined is the sum of their sums. |
| BillingPage.StatsPartition | pages/billing/index.js:155-158 | The total is paid plus pending plus overdue plus the amounts of bills of any other status. |
| BillingPage.AppendedBillCountsInItsStatus | pages/billing/index.js:156-158 | One more bill changes a status total by its amount exactly when it has that status. |
| BillingPage.OtherStatusCountsOnlyInTotal | pages/billing/index.js:155-158 | A bill of another status adds to the total and leaves paid, pending and overdue unchanged. |
| BillingPage.FilteredBillsExactly | pages/billing/index.js:168-173 | The shown bills are an order-preserving sublist of the bills. A bill is shown exactly when it matches the search (name or id) and the status filter, and then as many times as it occurs in the list. |
| BillingPage.FilteredBillsHaveStatus | pages/billing/index.js:171 | With a status chosen, every shown bill has that status. |
| BillingPage.NoCriteriaShowsAll | pages/billing/index.js:168-173 | With an empty search term and no status filter, every bill is shown, in order. |
| BillingPage.NoPatientNeedsDigitTerm | pages/billing/index.js:169-170 | A bill without a patient is found only by its id, so a term containing a non-digit never finds it. |
| BillingPage.StatusColor | pages/billing/index.js:175-182 | paid, pending and overdue have their gradients; the grey default is given exactly to every other status. |
| BillingPage.StatusIcon | pages/billing/index.js:184-191 | Each of the three statuses has its own icon; the money bag is given exactly to every other status. |
| BillingPage.StatusActions | pages/billing/index.js:378-393 | Status changes are offered exactly for a pending bill, and then both of them: "paid" and "overdue", each for that bill's id, and no other. |
| BillingPage.ActionsSettle | pages/billing/index.js:378-393 | After an offered change is applied, no change is offered for that bill any more. |
| BillingPage.BillsReadAsWritten | pages/billing/index.js:150-151 | `data.billing \|\| []`: rows are read only from a reply that wraps them under `billing`; any other reply gives no rows. |
| BillingPage.StoredBillsNeverShown | pages/billing/index.js:150-158 | Against the bare array the list route sends, the page as written holds no bills, and all four totals are zero, whatever is stored. |
| BillingPage.BillsRead | pages/billing/index.js:150-151 | The corrected read: a bare array, or rows under `billing`, gives the rows; any other key gives none. |
| BillingPage.FetchBills | pages/billing/index.js:147-166 | The corrected fetch. For the bare array the list route sends, the page holds exactly the stored rows, where pages/billing/index.js:151 as written holds none. The stats are those of the held bills, and the total splits into paid, pending, overdue and the bills of any other status. |
| BillingPage.FetchedBillsAreStored | pages/billing/index.js:147-166 | With the corrected read, the page holds exactly the stored rows, which for a non-empty reply differ from what the page as written holds. Its total is their sum, split into paid, pending, overdue and the rest. |

## Findings

| source | as written | input that shows it | evidently intended | confidence | as-written member | corrected member |
|---|---|---|---|---|---|---|
| pages/billing/index.js:150-151 | `data.billing \|\| []` reads a `billing` key, while pages/api/billing.js:39 answers the list with a bare JSON array | any non-empty list of stored bills: the array has no `billing` property, so the page holds no bills and total, paid, pending and overdue are all 0 | read the array itself, as the route sends it | not executed | BillingPage.BillsReadAsWritten (with BillingPage.StoredBillsNeverShown) | BillingPage.BillsRead (with BillingPage.FetchedBillsAreStored) |

## Left out

- Storage is not modelled. The Prisma, SQLite, pg and Supabase queries are left out, and so are the `include` joins and `orderBy` sorting of list queries. The doctor-by-name, appointment-owner, prescription-owner and email-exists lookups are the `Directory` values the store would answer. A list response records only its row filter and its shape, not rows.
- The `catch` blocks that answer 500 after a store failure are not modelled. They are outside the decision logic.
- `parseInt`, `parseFloat` and `new Date` are not modelled. Ids are `nat` and amounts are `int` (whole minor currency units, where the page uses floats). Dates are passed through as text. The NaN and invalid-date paths are therefore not modelled.
- `getServerSession` is an input. Token verification and the users-table read in the middleware are function parameters.
- bcrypt is left out: the password hash is an input to `RegisterApi.Register`. Its cost factor 10 is not modelled.
- The registration response does not model the generated `id` and `createdAt`.
- A store error raised when a users-table or doctor lookup is handed an undefined email is not modelled.
- JsText.Lower: `toLowerCase` is modelled for the ASCII letters A to Z only. Other characters are left unchanged, and Unicode case mapping is not modelled.
- BillingPage.StatusColor and BillingPage.StatusIcon are not modelled for status strings that name `Object.prototype` members, such as "constructor". In the page those look up a truthy inherited property instead of falling back to the default.
- BillingPage.MatchesSearch assumes a present patient has a string name. A patient with a null name makes the page throw, and that is not modelled.
- The page's status label (`paymentStatus?.toUpperCase() \|\| 'PENDING'`), currency and date formatting, the navigation menus and the create-invoice button are rendering, and are not modelled.
- The billing page's session redirect is not modelled.
- `updateBillStatus` is modelled only as the `StatusUpdate` a button sends, not the network call.
- The rest of pages/prescriptions/add.js is not modelled:
  - `formData` and `handleChange` (patient id, diagnosis, notes);
  - the patient list fetch;
  - the POST itself and its alerts.
- The form posts a `medications` array, but the prescriptions route reads `medicineName`, `dosage` and `duration` at the top level of the body. That mismatch between the page and the route is not modelled.
- The doctors route stores `specialization` on create but writes `specialty` on update. `DoctorsApi` models both fields as the code names them; whether the store accepts `specialty` is not modelled.
- `requireAuth` returns a closure over `roles`. It is modelled as one method taking `roles` and the request. Its return of the user is the `Admitted` outcome.
- Common.Js is a request body field as undefined, null or a string only. A JSON body can also carry a number, a boolean, an array or an object, and the guards test such a value's JavaScript truthiness: `if (status)` (pages/api/appointments.js:116), `paymentStatus || 'pending'` (pages/api/billing.js:58), `email || null` (pages/api/patients.js:68), `!role` and `includes(role)` (pages/api/auth/register.js:23-27). The model cannot express those bodies. The source stores `paymentStatus: 0` as "pending" and `email: {}` unchanged; the model has no such input.
- Concurrency between requests and React's re-rendering are not modelled.
