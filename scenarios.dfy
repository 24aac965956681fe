/** Request sequences against a freshly started application, with what the
    route contracts and the Directory lemmas guarantee about their outcome.
    Ids stand for the values `uuid.uuid4()` would produce; mail and broadcast
    outcomes are arbitrary, so each result holds whether or not the
    notifications fail. */
module Scenarios {
  import opened Records
  import opened Directory
  import opened App

  /** Register patient alice, register a doctor profile, log in as alice, book
      with that doctor: the booking page lists that one doctor and alice's
      listing holds exactly the submitted appointment, scheduled. */
  method EndToEndBooking(doctorId: string, appointmentId: string, topicConfigured: bool, mail: Delivery, sns: Delivery)
    returns (choices: Outcome, listing: Outcome)
    ensures choices == DoctorChoices({Doctor(doctorId, "Dr. X", "Cardio", "x@x.com")})
    ensures listing == Appointments({Appointment(appointmentId, doctorId, "alice", "2024-01-01", "checkup", Scheduled)})
  {
    var app := new MedTrack(topicConfigured);
    var o, log := app.Register(PatientRole, "alice", "pw1", mail);
    o := app.DoctorRegister(doctorId, "Dr. X", "Cardio", "x@x.com");
    o := app.Login("alice", "pw1");
    choices := app.BookingForm();
    DoctorListAfterPut(map[], Doctor(doctorId, "Dr. X", "Cardio", "x@x.com"));
    o, log := app.BookAppointment(appointmentId, doctorId, "2024-01-01", "checkup", sns);
    PatientListingAfterPut(map[], Appointment(appointmentId, doctorId, "alice", "2024-01-01", "checkup", Scheduled), "alice");
    listing := app.PatientAppointmentsPage();
  }

  /** Registering a taken username again is refused, keeps the first password
      and role, and the second password does not log in. */
  method ReRegistration(username: string, password: string, role: string, otherPassword: string, otherRole: string,
                        mail: Delivery, otherMail: Delivery)
    returns (first: Outcome, second: Outcome, stored: User, otherLogin: Outcome)
    ensures first == Registered && second == AlreadyExists
    ensures stored == User(username, password, role)
    ensures otherPassword != password ==> otherLogin == InvalidCredentials
  {
    var app := new MedTrack(false);
    var log;
    first, log := app.Register(role, username, password, mail);
    second, log := app.Register(otherRole, username, otherPassword, otherMail);
    stored := app.users[username];
    otherLogin := app.Login(username, otherPassword);
  }

  /** A patient books against a doctor id no profile has: the booking succeeds
      and the appointment is listed, while the doctor list stays empty. */
  method BookingWithUnknownDoctor(doctorId: string, appointmentId: string, sns: Delivery)
    returns (booked: Outcome, choices: Outcome, listing: Outcome)
    ensures booked == Booked
    ensures choices == DoctorChoices({})
    ensures listing == Appointments({Appointment(appointmentId, doctorId, "bob", "tomorrow", "cough", Scheduled)})
  {
    var app := new MedTrack(true);
    var o, log := app.Register(PatientRole, "bob", "pw", Delivered);
    o := app.Login("bob", "pw");
    booked, log := app.BookAppointment(appointmentId, doctorId, "tomorrow", "cough", sns);
    choices := app.BookingForm();
    PatientListingAfterPut(map[], Appointment(appointmentId, doctorId, "bob", "tomorrow", "cough", Scheduled), "bob");
    listing := app.PatientAppointmentsPage();
  }

  /** A doctor account "drx" and a doctor profile are independent: a booking
      against the profile id reaches drx's listing only when that id happens
      to be the string "drx". */
  method DoctorListingByUsername(doctorId: string, appointmentId: string, sns: Delivery)
    returns (listing: Outcome)
    ensures listing == Appointments(
      if doctorId == "drx" then {Appointment(appointmentId, doctorId, "alice", "2024-01-01", "checkup", Scheduled)}
      else {})
  {
    var app := new MedTrack(true);
    var booked := Appointment(appointmentId, doctorId, "alice", "2024-01-01", "checkup", Scheduled);
    var o, log := app.Register(DoctorRole, "drx", "secret", Delivered);
    o, log := app.Register(PatientRole, "alice", "pw1", Delivered);
    assert app.users["drx"] == User("drx", "secret", DoctorRole);
    o := app.DoctorRegister(doctorId, "Dr. X", "Cardio", "x@x.com");
    o := app.Login("alice", "pw1");
    assert app.session == Some(Identity("alice", PatientRole));
    o, log := app.BookAppointment(appointmentId, doctorId, "2024-01-01", "checkup", sns);
    assert app.appointments == map[][KeyOf(booked) := booked];
    o := app.Logout();
    o := app.Login("drx", "secret");
    assert app.session == Some(Identity("drx", DoctorRole));
    DoctorListingAfterPut(map[], booked, "drx");
    listing := app.DoctorAppointmentsPage();
  }

  /** A doctor session cannot book, and a logged-out browser reaches no dashboard. */
  method GateRefusals(appointmentId: string, doctorId: string)
    returns (booking: Outcome, afterLogout: Outcome, stored: map<AppointmentKey, Appointment>)
    ensures booking == Unauthorized && stored == map[]
    ensures afterLogout == Unauthorized
  {
    var app := new MedTrack(false);
    var o, log := app.Register(DoctorRole, "drx", "secret", Delivered);
    o := app.Login("drx", "secret");
    booking, log := app.BookAppointment(appointmentId, doctorId, "2024-01-01", "checkup", Delivered);
    stored := app.appointments;
    o := app.Logout();
    afterLogout := app.DoctorDashboard();
  }
}
