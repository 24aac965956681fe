/** The directory store: point lookups (`get_item`) and full scans with a
    client-side filter (`scan`) over the three tables, and how the scans
    answer after an unconditional `put_item` of a fresh record. */
module Directory {
  import opened Records

  /** `get_item`: the item stored under `key`, if any. */
  function Get<K, V>(table: map<K, V>, key: K): (r: Option<V>)
    ensures r.Some? <==> key in table
    ensures r.Some? ==> r.value == table[key]
  {
    if key in table then Some(table[key]) else None
  }

  /** `doctors_table.scan()`: every stored doctor record, unfiltered. */
  function AllDoctors(doctors: map<string, Doctor>): (r: set<Doctor>)
    ensures forall id :: id in doctors ==> doctors[id] in r
    ensures forall d :: d in r ==> exists id :: id in doctors && doctors[id] == d
  {
    doctors.Values
  }

  /** `appointments_table.scan` filtered on `patient_email == patient`. */
  function PatientAppointments(appointments: map<AppointmentKey, Appointment>, patient: string): (r: set<Appointment>)
    ensures forall k :: k in appointments ==> (appointments[k] in r <==> appointments[k].patientEmail == patient)
    ensures forall a :: a in r ==> a.patientEmail == patient && exists k :: k in appointments && appointments[k] == a
  {
    set a | a in appointments.Values && a.patientEmail == patient
  }

  /** `appointments_table.scan` filtered on `doctor_id == doctorId`. */
  function DoctorAppointments(appointments: map<AppointmentKey, Appointment>, doctorId: string): (r: set<Appointment>)
    ensures forall k :: k in appointments ==> (appointments[k] in r <==> appointments[k].doctorId == doctorId)
    ensures forall a :: a in r ==> a.doctorId == doctorId && exists k :: k in appointments && appointments[k] == a
  {
    set a | a in appointments.Values && a.doctorId == doctorId
  }

  /** Putting an item under a key not yet in use adds exactly that item to what a scan reads. */
  lemma ValuesAfterFreshPut<K, V>(table: map<K, V>, key: K, item: V)
    requires key !in table
    ensures table[key := item].Values == table.Values + {item}
  {
    var t := table[key := item];
    forall v | v in t.Values ensures v in table.Values + {item} {
      var k :| k in t && t[k] == v;
      if k != key {
        assert table[k] == v;
      }
    }
    forall v | v in table.Values + {item} ensures v in t.Values {
      if v == item {
        assert t[key] == v;
      } else {
        var k :| k in table && table[k] == v;
        assert t[k] == v;
      }
    }
  }

  /** An appointment put under a fresh key shows up in its own patient's
      listing and leaves every other patient's listing as it was. */
  lemma PatientListingAfterPut(appointments: map<AppointmentKey, Appointment>, a: Appointment, patient: string)
    requires KeyOf(a) !in appointments
    ensures PatientAppointments(appointments[KeyOf(a) := a], patient)
         == if a.patientEmail == patient then PatientAppointments(appointments, patient) + {a}
            else PatientAppointments(appointments, patient)
  {
    ValuesAfterFreshPut(appointments, KeyOf(a), a);
  }

  /** The same for the listing of the doctor id the appointment names. */
  lemma DoctorListingAfterPut(appointments: map<AppointmentKey, Appointment>, a: Appointment, doctorId: string)
    requires KeyOf(a) !in appointments
    ensures DoctorAppointments(appointments[KeyOf(a) := a], doctorId)
         == if a.doctorId == doctorId then DoctorAppointments(appointments, doctorId) + {a}
            else DoctorAppointments(appointments, doctorId)
  {
    ValuesAfterFreshPut(appointments, KeyOf(a), a);
  }

  /** In a keyed table, a record whose key is unused is not among the stored records. */
  lemma FreshKeyNotStored(appointments: map<AppointmentKey, Appointment>, a: Appointment)
    requires AppointmentsKeyed(appointments) && KeyOf(a) !in appointments
    ensures a !in appointments.Values
  {
  }

  /** A booking adds exactly one record to the booking patient's listing and
      to the listing of the doctor id it names. */
  lemma BookingGrowsListingsByOne(appointments: map<AppointmentKey, Appointment>, a: Appointment)
    requires AppointmentsKeyed(appointments) && KeyOf(a) !in appointments
    ensures |PatientAppointments(appointments[KeyOf(a) := a], a.patientEmail)|
         == |PatientAppointments(appointments, a.patientEmail)| + 1
    ensures |DoctorAppointments(appointments[KeyOf(a) := a], a.doctorId)|
         == |DoctorAppointments(appointments, a.doctorId)| + 1
  {
    FreshKeyNotStored(appointments, a);
    PatientListingAfterPut(appointments, a, a.patientEmail);
    DoctorListingAfterPut(appointments, a, a.doctorId);
  }

  /** Registering a doctor under a fresh id adds exactly that profile to the dropdown list. */
  lemma DoctorListAfterPut(doctors: map<string, Doctor>, d: Doctor)
    requires DoctorsKeyed(doctors) && d.doctorId !in doctors
    ensures AllDoctors(doctors[d.doctorId := d]) == AllDoctors(doctors) + {d}
    ensures d !in AllDoctors(doctors)
    ensures |AllDoctors(doctors[d.doctorId := d])| == |AllDoctors(doctors)| + 1
  {
    ValuesAfterFreshPut(doctors, d.doctorId, d);
    forall id | id in doctors ensures doctors[id] != d {
      assert doctors[id].doctorId == id;
    }
  }

  /** A booking keeps every record under its own key and leaves no appointment id used twice. */
  lemma BookingKeepsKeying(appointments: map<AppointmentKey, Appointment>, a: Appointment)
    requires AppointmentsKeyed(appointments) && UniqueAppointmentIds(appointments)
    requires FreshAppointmentId(appointments, a.appointmentId)
    ensures KeyOf(a) !in appointments
    ensures AppointmentsKeyed(appointments[KeyOf(a) := a])
    ensures UniqueAppointmentIds(appointments[KeyOf(a) := a])
  {
  }
}
