/** The MedTrack application: the three DynamoDB tables held as maps, the
    browser session as an optional identity, and one member per route.
    A route that writes to a table or to the session is a method whose frame
    names exactly what it may change; a route that only reads is a function. */
module App {
  import opened Records
  import opened Directory
  import opened Access

  /** Text of the welcome email sent after a registration: it greets the new user by name. */
  function WelcomeBody(username: string, role: string): (r: string)
    ensures |r| >= 6 + |username| && r[..6 + |username|] == "Hello " + username
  {
    "Hello " + username + ",\n\nThank you for registering as a " + role + " on MedTrack."
  }

  /** Text of the broadcast published after a booking: it ends with the booking patient. */
  function BookingNotice(doctorId: string, date: string, patientEmail: string): (r: string)
    ensures |r| >= |patientEmail| && r[|r| - |patientEmail|..] == patientEmail
  {
    "New appointment booked with Doctor ID " + doctorId + " on " + date + " for " + patientEmail
  }

  class MedTrack {
    var users: map<string, User>
    var doctors: map<string, Doctor>
    var appointments: map<AppointmentKey, Appointment>
    var session: Option<Identity>
    /** Whether `SNS_TOPIC_ARN` is set in the environment. */
    const topicConfigured: bool

    /** Each table holds its records under their own keys, and appointment ids are never reused. */
    ghost predicate Valid()
      reads this
    {
      && UsersKeyed(users)
      && DoctorsKeyed(doctors)
      && AppointmentsKeyed(appointments)
      && UniqueAppointmentIds(appointments)
    }

    /** Empty tables and no one logged in. */
    constructor (topicConfigured: bool)
      ensures Valid()
      ensures users == map[] && doctors == map[] && appointments == map[]
      ensures session == None && this.topicConfigured == topicConfigured
    {
      users, doctors, appointments := map[], map[], map[];
      session := None;
      this.topicConfigured := topicConfigured;
    }

    /** `send_sns_notification`: publishes only when a topic is configured; an
        error raised by the publish is only logged. It changes no table and no
        session, whatever the transport does. */
    method SendSnsNotification(message: string, transport: Delivery) returns (log: Option<string>)
      ensures log.Some? <==> topicConfigured && transport.Raised?
      ensures log.Some? ==> log.value == "SNS error: " + transport.error
    {
      log := None;
      if topicConfigured {
        match transport
        case Delivered =>
        case Raised(e) => log := Some("SNS error: " + e);
      }
    }

    /** The welcome email of `register` (subject "Welcome to MedTrack!",
        recipient `username`, the given body): an error raised by the mail
        transport is only logged. It changes no table and no session. */
    method SendWelcomeEmail(username: string, body: string, transport: Delivery) returns (log: Option<string>)
      ensures log.Some? <==> transport.Raised?
      ensures log.Some? ==> log.value == "Email error: " + transport.error
    {
      log := None;
      match transport
      case Delivered =>
      case Raised(e) => log := Some("Email error: " + e);
    }

    /** POST /register. An existing username is refused and nothing changes;
        otherwise exactly the new user is stored. The outcome and the stored
        user are the same whether or not the welcome email fails; a failure
        only shows in the returned log line. */
    method Register(role: string, username: string, password: string, mail: Delivery)
      returns (o: Outcome, log: Option<string>)
      requires Valid()
      modifies this`users
      ensures Valid()
      ensures old(username in users) ==> o == AlreadyExists && users == old(users)
      ensures old(username !in users) ==>
        o == Registered && users == old(users)[username := User(username, password, role)]
      ensures log.Some? <==> old(username !in users) && mail.Raised?
      ensures log.Some? ==> log.value == "Email error: " + mail.error
    {
      log := None;
      var existing := Get(users, username);
      if existing.Some? {
        return AlreadyExists, log;
      }
      users := users[username := User(username, password, role)];
      log := SendWelcomeEmail(username, WelcomeBody(username, role), mail);
      o := Registered;
    }

    /** POST /login. Succeeds exactly when the stored password of `username`
        equals `password`; then the session becomes the user and its stored
        role, and the redirect goes to "/" + that role. On failure the session
        is left as it was. */
    method Login(username: string, password: string) returns (o: Outcome)
      requires Valid()
      modifies this`session
      ensures Valid()
      ensures var id := Authenticate(users, username, password);
        if id.Some? then session == id && o == LoggedIn("/" + users[username].role)
        else session == old(session) && o == InvalidCredentials
    {
      var user := Get(users, username);
      if user.Some? && user.value.password == password {
        session := Some(Identity(username, user.value.role));
        return LoggedIn("/" + user.value.role);
      }
      o := InvalidCredentials;
    }

    /** GET /logout: the session is cleared. */
    method Logout() returns (o: Outcome)
      requires Valid()
      modifies this`session
      ensures Valid()
      ensures session == None && o == LoggedOut
    {
      session := None;
      o := LoggedOut;
    }

    /** GET /doctor: the dashboard of the session user, for a doctor session only. */
    function DoctorDashboard(): (o: Outcome)
      reads this
      ensures o != Unauthorized <==> Authorized(session, DoctorRole)
      ensures o != Unauthorized ==> o == Dashboard(session.value.username)
    {
      if Authorized(session, DoctorRole) then Dashboard(session.value.username) else Unauthorized
    }

    /** GET /patient: the dashboard of the session user, for a patient session only. */
    function PatientDashboard(): (o: Outcome)
      reads this
      ensures o != Unauthorized <==> Authorized(session, PatientRole)
      ensures o != Unauthorized ==> o == Dashboard(session.value.username)
    {
      if Authorized(session, PatientRole) then Dashboard(session.value.username) else Unauthorized
    }

    /** POST /appointment/book. A patient session stores exactly one new
        appointment under the fresh id and the form's doctor id, for the
        session user, with status "Scheduled". The doctor id is not checked
        against the doctors table, and the outcome does not depend on the
        broadcast, whose failure only shows in the returned log line. Any other
        session is sent to the login page and nothing changes. */
    method BookAppointment(appointmentId: string, doctorId: string, date: string, reason: string, sns: Delivery)
      returns (o: Outcome, log: Option<string>)
      requires Valid()
      requires FreshAppointmentId(appointments, appointmentId)
      modifies this`appointments
      ensures Valid()
      ensures !Authorized(session, PatientRole) ==> o == Unauthorized && appointments == old(appointments)
      ensures Authorized(session, PatientRole) ==>
        o == Booked &&
        appointments == old(appointments)[AppointmentKey(appointmentId, doctorId) :=
          Appointment(appointmentId, doctorId, session.value.username, date, reason, Scheduled)]
      ensures log.Some? <==> Authorized(session, PatientRole) && topicConfigured && sns.Raised?
      ensures log.Some? ==> log.value == "SNS error: " + sns.error
    {
      log := None;
      if !Authorized(session, PatientRole) {
        return Unauthorized, log;
      }
      var patientEmail := session.value.username;
      var a := Appointment(appointmentId, doctorId, patientEmail, date, reason, Scheduled);
      BookingKeepsKeying(appointments, a);
      appointments := appointments[KeyOf(a) := a];
      log := SendSnsNotification(BookingNotice(doctorId, date, patientEmail), sns);
      o := Booked;
    }

    /** GET /appointment/book: for a patient session, the booking form listing every doctor record. */
    function BookingForm(): (o: Outcome)
      reads this
      ensures o != Unauthorized <==> Authorized(session, PatientRole)
      ensures o != Unauthorized ==> o.DoctorChoices?
      ensures o.DoctorChoices? ==> forall id :: id in doctors ==> doctors[id] in o.doctors
      ensures o.DoctorChoices? ==> forall d :: d in o.doctors ==> d in doctors.Values
    {
      if Authorized(session, PatientRole) then DoctorChoices(AllDoctors(doctors)) else Unauthorized
    }

    /** GET /doctor/appointments: for a doctor session, exactly the stored
        appointments whose doctor id equals the session username. */
    function DoctorAppointmentsPage(): (o: Outcome)
      reads this
      ensures o != Unauthorized <==> Authorized(session, DoctorRole)
      ensures o != Unauthorized ==> o.Appointments?
      ensures o.Appointments? ==> forall k :: k in appointments ==>
        (appointments[k] in o.appointments <==> appointments[k].doctorId == session.value.username)
      ensures o.Appointments? ==> forall a :: a in o.appointments ==> a in appointments.Values
    {
      if Authorized(session, DoctorRole) then Appointments(DoctorAppointments(appointments, session.value.username))
      else Unauthorized
    }

    /** GET /patient/appointments: for a patient session, exactly the stored
        appointments whose patient email equals the session username. */
    function PatientAppointmentsPage(): (o: Outcome)
      reads this
      ensures o != Unauthorized <==> Authorized(session, PatientRole)
      ensures o != Unauthorized ==> o.Appointments?
      ensures o.Appointments? ==> forall k :: k in appointments ==>
        (appointments[k] in o.appointments <==> appointments[k].patientEmail == session.value.username)
      ensures o.Appointments? ==> forall a :: a in o.appointments ==> a in appointments.Values
    {
      if Authorized(session, PatientRole) then Appointments(PatientAppointments(appointments, session.value.username))
      else Unauthorized
    }

    /** POST /doctor/register: stores exactly the new profile under the fresh
        id. No session is needed and none is consulted. */
    method DoctorRegister(doctorId: string, name: string, specialization: string, email: string) returns (o: Outcome)
      requires Valid()
      requires doctorId !in doctors
      modifies this`doctors
      ensures Valid()
      ensures o == DoctorRegistered
      ensures doctors == old(doctors)[doctorId := Doctor(doctorId, name, specialization, email)]
    {
      doctors := doctors[doctorId := Doctor(doctorId, name, specialization, email)];
      o := DoctorRegistered;
    }
  }
}
