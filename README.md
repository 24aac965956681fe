# MedTrack appointment scheduling, modelled in Dafny

MedTrack is a small Flask application in which patients and doctors register,
log in, book appointments and list them. It keeps its data in three DynamoDB
tables: `users` keyed by `username`, `doctors` keyed by `doctor_id`, and
`appointments` keyed by the pair (`appointment_id`, `doctor_id`). After a
booking it publishes a notice to an SNS topic, and after a registration it
sends a welcome email.

This project models that workflow as a state machine and proves what each
route does to the tables and to the session:

- `records.dfy` (module `Records`) holds the three record kinds, the session
  identity, the route outcomes and the keying invariants of the tables.
- `directory.dfy` (module `Directory`) holds the store operations. The DynamoDB
  tables are maps: `get_item` is a map lookup and `put_item` an unconditional
  map update. A `scan` with a `FilterExpression` is the set of stored records
  that satisfy the filter. Its lemmas say how each listing answers after a
  fresh record is put.
- `access.dfy` (module `Access`) holds the role gate each protected route
  repeats, and the plain-text password check of the login form.
- `app.dfy` (module `App`) holds class `MedTrack`. Its fields are the three
  tables, the session (empty, or a `(username, role)` pair) and whether an SNS
  topic is configured. Routes that write (`Register`, `Login`, `Logout`,
  `BookAppointment`, `DoctorRegister`) are methods. Each has a frame that names
  the one field it may change, and an `ensures` giving that field's new value.
  Read-only routes (the two dashboards, the booking form, the two listings)
  are functions.
- `scenarios.dfy` (module `Scenarios`) issues request sequences against a
  fresh application and proves what they return, from the route contracts
  and the Directory lemmas.

The email and SNS transports are stubs: methods with no `modifies` clause.
Their outcome (`Delivered` or `Raised(error)`) is a parameter of the route that
calls them. So a route's outcome and new state cannot depend on whether a
notification failed. The line the code prints on such a failure is returned
by the stub, and `Register` and `BookAppointment` return it as well.
`uuid.uuid4()` becomes an id parameter, with a precondition that the id is
not used yet.

Two facts about app.py that the model keeps:
- The code never checks that the stored role is `patient` or `doctor`
  (app.py:99, 110-114): it stores whatever string the form sent. A user with
  any other role can log in, is redirected to `/<role>`, and passes no gate.
- The POST routes return redirects, not the created record (app.py:129, 194, 239).

## Model

| member | source | states |
|---|---|---|
| `Records.KeyOf` | app.py:66-77 | the key of an appointment is its (`appointment_id`, `doctor_id`) pair, hash key then range key; that each stored appointment sits under it is `AppointmentsKeyed`, which `BookingKeepsKeying` proves every booking preserves |
| `Directory.Get` | app.py:104 | `get_item` finds an item exactly when the key is stored, and then returns the stored item (also used at app.py:139) |
| `Directory.AllDoctors` | app.py:197 | the doctor list holds every stored doctor record and nothing else |
| `Directory.PatientAppointments` | app.py:217-221 | a stored appointment is in the patient listing iff its `patient_email` is the given username; the listing holds only stored records |
| `Directory.DoctorAppointments` | app.py:205-209 | a stored appointment is in the doctor listing iff its `doctor_id` is the given id; the listing holds only stored records |
| `Directory.ValuesAfterFreshPut` | app.py:180-187 | putting an item under an unused key adds exactly that item to what a scan can read |
| `Directory.PatientListingAfterPut` | app.py:172-187 | after a booking under a fresh key, the booking patient's listing gains exactly the new record; every other patient's listing is unchanged |
| `Directory.DoctorListingAfterPut` | app.py:172-187 | after a booking, the listing of the named doctor id gains exactly the new record; every other doctor id's listing is unchanged |
| `Directory.FreshKeyNotStored` | app.py:173 | in a keyed table, a record whose key is unused is not among the stored records |
| `Directory.BookingGrowsListingsByOne` | app.py:172-187 | a booking adds exactly one record to the patient's listing and one to the doctor id's listing |
| `Directory.DoctorListAfterPut` | app.py:228-237 | registering a doctor under a fresh id adds exactly that profile to the doctor list, which grows by one |
| `Directory.BookingKeepsKeying` | app.py:173-187 | a booking with a fresh appointment id keeps every record under its own key and leaves no appointment id used twice |
| `Access.Authorized` | app.py:152 | the gate passes only a non-empty session, and a non-empty one exactly when its role is the required role; the same check is at app.py:158, 170, 203 and 215 |
| `Access.Authenticate` | app.py:139-142 | login is accepted iff the username is stored and its stored password equals the given one exactly; the identity is the username with the stored role |
| `Access.GatesExclusive` | app.py:152-160 | no session passes both the doctor and the patient gate; an empty session passes neither |
| `Access.LoginOpensOwnRole` | app.py:142-145 | the session a login writes passes exactly the gate of the stored role |
| `Access.RegisteredCredentials` | app.py:110-142 | right after registration the user's own password logs in with the registered role; any other password is refused |
| `Access.AuthenticateIgnoresOtherUsers` | app.py:139-142 | storing a user under another username does not change how a login for this username is answered |
| `App.WelcomeBody` | app.py:122 | the welcome email body begins by greeting the new user by username |
| `App.BookingNotice` | app.py:190 | the booking broadcast ends with the booking patient's email |
| `App.MedTrack.constructor` | app.py:49-77 | the application starts with three empty tables and no session |
| `App.MedTrack.SendSnsNotification` | app.py:80-89 | a log line appears only when a topic is configured and the publish raised; no table or session changes |
| `App.MedTrack.SendWelcomeEmail` | app.py:116-126 | a log line appears only when the mail transport raised; no table or session changes |
| `App.MedTrack.Register` | app.py:97-129 | a taken username yields `AlreadyExists` and the users table is unchanged; a new one stores exactly `{username, password, role}` and yields `Registered`; doctors, appointments and session are untouched; the mail outcome has no effect on either, and a mail failure only yields the log line `Email error: …` |
| `App.MedTrack.Login` | app.py:134-148 | on valid credentials the session becomes `(username, stored role)` and the outcome redirects to `"/" + stored role`; otherwise `InvalidCredentials` and the session stays as it was; no table changes |
| `App.MedTrack.Logout` | app.py:162-165 | the session is empty afterwards; no table changes |
| `App.MedTrack.DoctorDashboard` | app.py:150-154 | a dashboard for the session user iff the session role is `doctor`, otherwise `Unauthorized` |
| `App.MedTrack.PatientDashboard` | app.py:156-160 | a dashboard for the session user iff the session role is `patient`, otherwise `Unauthorized` |
| `App.MedTrack.BookAppointment` | app.py:168-194 | for a patient session, exactly one appointment is put under `(fresh id, form doctor_id)` with `patient_email` set to the session username, the form's date and reason, and status `Scheduled`; the doctor id is not checked; other sessions get `Unauthorized` and nothing changes; the broadcast outcome has no effect on either, and a publish failure only yields the log line `SNS error: …` |
| `App.MedTrack.BookingForm` | app.py:169-198 | for a patient session, the form lists every stored doctor record and only those; otherwise `Unauthorized` |
| `App.MedTrack.DoctorAppointmentsPage` | app.py:201-210 | for a doctor session, exactly the stored appointments whose `doctor_id` is the session username; otherwise `Unauthorized`; reads only |
| `App.MedTrack.PatientAppointmentsPage` | app.py:213-222 | for a patient session, exactly the stored appointments whose `patient_email` is the session username; otherwise `Unauthorized`; reads only |
| `App.MedTrack.DoctorRegister` | app.py:225-239 | with no session check, exactly `{doctor_id: fresh id, name, specialization, email}` is added to the doctors table; nothing else changes |
| `Scenarios.EndToEndBooking` | app.py:96-222 | register alice, register a doctor, log in, book: the form lists that doctor and alice's listing is exactly the submitted appointment with status `Scheduled`, whatever the notifications do |
| `Scenarios.ReRegistration` | app.py:97-148 | the second registration of a username is refused, the first password and role stay stored, and a different second password does not log in |
| `Scenarios.BookingWithUnknownDoctor` | app.py:168-222 | booking against a doctor id with no profile succeeds and is listed for the patient, while the doctor list is empty |
| `Scenarios.DoctorListingByUsername` | app.py:201-210 | a booking against a doctor profile id reaches the doctor account `drx` only when the id is the string `drx` |
| `Scenarios.GateRefusals` | app.py:150-171 | a doctor session cannot book and stores nothing; after logout the doctor dashboard is refused |

## Left out

- Table provisioning (`create_table_if_not_exists` and its waiter): one-time infrastructure setup. The model starts from three empty tables. On a restart against tables that already exist, `create_table_if_not_exists` keeps them and their items (app.py:36-37); the empty-table constructor does not represent that case.
- The boto3 DynamoDB, SNS and Flask-Mail clients: foreign library calls. The tables are maps, and the notification transports are a `Delivery` parameter of the calling route.
- Read consistency: the maps give read-your-writes, while DynamoDB `get_item` and `scan` are eventually consistent by default, and app.py:104, 139, 197, 206 and 218 pass no `ConsistentRead`. The refusal in `Scenarios.ReRegistration` and the listing in `Scenarios.EndToEndBooking` rely on read-your-writes.
- Environment and configuration loading, `load_dotenv` and `app.run`: plumbing. Only "is an SNS topic configured" is kept, as a constructor parameter.
- Templates, flash messages and URL building: user interface. Each route's result is an `Outcome` value carrying the data the page would show. The GET pages `/`, `/register`, `/login` and `/doctor/register` only render a template (app.py:94, 131, 148, 240) and are not modelled. `WelcomeBody` and `BookingNotice` reproduce the texts of app.py:122 and 190; their contracts state only how the texts begin or end.
- Randomness of `uuid.uuid4()`: ids are parameters that must be unused.
- BookAppointment: requires a fresh appointment id even when the session is refused, although the code only generates one after the gate passes.
- Concurrency, including the registration race, in which two requests both pass the existence check and the second put silently overwrites the first: the model is sequential.
- More than one browser session: the model holds the session of one client.
- Order of scan results: listings are sets. Because every record sits under its own key, no two stored records are equal, so nothing is lost as a multiset.
- Scan pagination: DynamoDB returns at most one page (1 MB) per `scan`, and the code reads only the first page. The model returns every matching record.
- DynamoDB's rejection of an empty string as a key value, and requests missing a form field (a 400 response in Flask): the model assumes every field is present and accepted by the store.
