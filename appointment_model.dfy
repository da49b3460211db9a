/** The appointment entity: its id comes from the stored list when it is
    built, and its four other fields are fixed from then on (it has getters
    only). */
module AppointmentModel {
  import opened Common
  import opened Json
  import opened Store

  /** An appointment; the datatype's fields are its getters. */
  datatype Appointment = Appointment(
    id: int,
    patientId: Option<Value>,
    doctorId: Option<Value>,
    date: Option<Value>,
    reason: Option<Value>)

  /** `new Appointment(patient_id, doctor_id, date, reason)` while the list
      `stored` is on file: the caller supplies every field but the id, which
      follows the last stored appointment. */
  function NewAppointment(stored: seq<Record>, patientId: Option<Value>, doctorId: Option<Value>,
                          date: Option<Value>, reason: Option<Value>): (a: Appointment)
    ensures a.patientId == patientId && a.doctorId == doctorId && a.date == date && a.reason == reason
    ensures stored == [] ==> a.id == 1
    ensures IdsIncreasing(stored) ==> forall i | 0 <= i < |stored| :: stored[i].id < a.id
    ensures IdsIncreasing(stored) ==> IdsIncreasing(stored + [ToObj(a)])
  {
    var a := Appointment(NextId(stored), patientId, doctorId, date, reason);
    assert IdsIncreasing(stored) ==> IdsIncreasing(stored + [ToObj(a)]) by {
      if IdsIncreasing(stored) {
        var t := stored + [ToObj(a)];
        forall i, j | 0 <= i < j < |t| ensures t[i].id < t[j].id {
          assert t[i] == stored[i];
        }
      }
    }
    a
  }

  /** `toObj()`: the object `{id, patient_id, doctor_id, date, reason}` that
      is stored and returned; an undefined field leaves no key. */
  function ToObj(a: Appointment): (r: Record)
    ensures r.id == a.id
    ensures r.fields.Keys <= {"patient_id", "doctor_id", "date", "reason"}
    ensures Get(r.fields, "patient_id") == a.patientId
    ensures Get(r.fields, "doctor_id") == a.doctorId
    ensures Get(r.fields, "date") == a.date
    ensures Get(r.fields, "reason") == a.reason
  {
    Record(a.id, With(With(With(With(map[], "patient_id", a.patientId), "doctor_id", a.doctorId),
                           "date", a.date), "reason", a.reason))
  }

  /** Reading an appointment back from its stored object. */
  function FromRecord(r: Record): Appointment {
    Appointment(r.id, Get(r.fields, "patient_id"), Get(r.fields, "doctor_id"),
                Get(r.fields, "date"), Get(r.fields, "reason"))
  }

  /** `toObj` loses nothing: the stored object gives back the appointment. */
  lemma ToObjRoundTrip(a: Appointment)
    ensures FromRecord(ToObj(a)) == a
  {
  }

  /** ... and it adds nothing: an object with only those keys is the
      `toObj` of what it reads back as. */
  lemma {:induction false} FromRecordRoundTrip(r: Record)
    requires r.fields.Keys <= {"patient_id", "doctor_id", "date", "reason"}
    ensures ToObj(FromRecord(r)) == r
  {
    var t := ToObj(FromRecord(r));
    assert t.fields.Keys == r.fields.Keys;
  }
}
