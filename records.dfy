/** The three record kinds held by the directory store, the session identity,
    the outcome of each route, and the keying invariants of the three tables. */
module Records {

  datatype Option<+T> = None | Some(value: T)

  /** The two roles the access gate knows of. The role stored with a user is
      whatever string the registration form carried. */
  const DoctorRole: string := "doctor"
  const PatientRole: string := "patient"

  /** The status every appointment is created with; nothing changes it. */
  const Scheduled: string := "Scheduled"

  /** An item of the `users` table, keyed by `username`. */
  datatype User = User(username: string, password: string, role: string)

  /** An item of the `doctors` table, keyed by `doctorId`. */
  datatype Doctor = Doctor(doctorId: string, name: string, specialization: string, email: string)

  /** The composite primary key of the `appointments` table: hash key
      `appointmentId`, range key `doctorId`. */
  datatype AppointmentKey = AppointmentKey(appointmentId: string, doctorId: string)

  /** An item of the `appointments` table. */
  datatype Appointment = Appointment(
    appointmentId: string,
    doctorId: string,
    patientEmail: string,
    date: string,
    reason: string,
    status: string)

  /** The `username` and `role` entries a successful login writes into the session. */
  datatype Identity = Identity(username: string, role: string)

  /** What a route hands back to the browser, with the data the page shows. */
  datatype Outcome =
    | Registered                               // flash success, redirect to /login
    | AlreadyExists                            // flash danger, show the form again
    | LoggedIn(location: string)               // redirect to "/" + stored role
    | InvalidCredentials                       // flash danger, show the form again
    | Unauthorized                             // redirect to /login
    | Dashboard(username: string)              // dashboard greeting the session user
    | LoggedOut                                // redirect to /
    | Booked                                   // flash success, redirect to the patient dashboard
    | DoctorChoices(doctors: set<Doctor>)      // booking form with the doctor dropdown
    | Appointments(appointments: set<Appointment>)
    | DoctorRegistered                         // flash success, redirect to /login

  /** The outcome of handing a message to an external collaborator (mail or SNS). */
  datatype Delivery = Delivered | Raised(error: string)

  /** The key under which `put_item` stores an appointment: its
      `appointment_id` as hash key and its `doctor_id` as range key. */
  function KeyOf(a: Appointment): (k: AppointmentKey)
    ensures k.appointmentId == a.appointmentId && k.doctorId == a.doctorId
  {
    AppointmentKey(a.appointmentId, a.doctorId)
  }

  /** Every stored user sits under its own username. */
  ghost predicate UsersKeyed(users: map<string, User>)
  {
    forall u :: u in users ==> users[u].username == u
  }

  /** Every stored doctor sits under its own doctor id. */
  ghost predicate DoctorsKeyed(doctors: map<string, Doctor>)
  {
    forall d :: d in doctors ==> doctors[d].doctorId == d
  }

  /** Every stored appointment sits under the key made of its own two key attributes. */
  ghost predicate AppointmentsKeyed(appointments: map<AppointmentKey, Appointment>)
  {
    forall k :: k in appointments ==> KeyOf(appointments[k]) == k
  }

  /** No appointment id is used by two stored appointments. */
  ghost predicate UniqueAppointmentIds(appointments: map<AppointmentKey, Appointment>)
  {
    forall k1, k2 :: k1 in appointments && k2 in appointments && k1.appointmentId == k2.appointmentId ==> k1 == k2
  }

  /** `id` is not yet the appointment id of any stored appointment (what `uuid.uuid4()` provides). */
  predicate FreshAppointmentId(appointments: map<AppointmentKey, Appointment>, id: string)
  {
    forall k :: k in appointments ==> k.appointmentId != id
  }
}
