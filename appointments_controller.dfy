/** The appointments handlers: register with its existence and double-booking
    checks, PUT, PATCH and DELETE on the appointments list, and the search
    over it (lookup by id and pagination are the shared ones in Store). The
    patient and doctor lists the checks read, and the date parser, are
    parameters. */
module AppointmentsApi {
  import opened Common
  import opened Json
  import opened JsText
  import opened Store
  import opened AppointmentModel

  const Messages := Texts("ID de cita inválido", "Cita con ID ", " no encontrada",
                          "No se puede modificar el ID de la cita", "Error al actualizar la cita",
                          "Error al eliminar la cita")
  const MissingFields := "Faltan campos obligatorios: patient_id, doctor_id, date"
  const SlotTaken := "Horario no disponible. Ya existe una cita a esta hora."
  const SaveFailed := "Error al guardar la cita"
  const SearchFailed := "Error al buscar citas"

  /** The fields PUT rebuilds. */
  const PutKeys: set<string> := {"patient_id", "doctor_id", "date", "reason"}

  function PatientMissing(v: Value): string {
    "Paciente con ID " + ToJsString(v) + " no encontrado"
  }

  function DoctorMissing(v: Value): string {
    "Doctor con ID " + ToJsString(v) + " no encontrado"
  }

  /** `patient_id`, `doctor_id` and `date` are all truthy. */
  predicate RequiredGiven(body: Object) {
    Truthy(Get(body, "patient_id")) && Truthy(Get(body, "doctor_id")) && Truthy(Get(body, "date"))
  }

  /** `new Date(v).getTime()`, None standing for NaN; undefined gives NaN. */
  function TimeOf(v: Option<Value>, timestamp: Value -> Option<int>): Option<int> {
    if v.None? then None else timestamp(v.value)
  }

  /** The register conflict test on one stored appointment:
      `app.doctor_id === doctor_id && new Date(app.date).getTime() === newDate`
      (NaN never equals anything). */
  predicate Clashes(app: Record, doctorId: Value, when: Option<int>, timestamp: Value -> Option<int>) {
    && StrictEquals(Get(app.fields, "doctor_id"), Some(doctorId))
    && when.Some?
    && TimeOf(Get(app.fields, "date"), timestamp) == when
  }

  /** Some stored appointment clashes: the `find` register runs. */
  predicate SlotTakenIn(s: seq<Record>, doctorId: Value, when: Option<int>, timestamp: Value -> Option<int>) {
    exists i | 0 <= i < |s| :: Clashes(s[i], doctorId, when, timestamp)
  }

  /** Appointment a holds the slot (doctor and instant) that b asks for. */
  predicate SameSlot(a: Record, b: Record, timestamp: Value -> Option<int>) {
    "doctor_id" in b.fields
    && Clashes(a, b.fields["doctor_id"], TimeOf(Get(b.fields, "date"), timestamp), timestamp)
  }

  /** No doctor has two appointments at the same instant. */
  predicate NoDoubleBooking(s: seq<Record>, timestamp: Value -> Option<int>) {
    forall i, j | 0 <= i < j < |s| :: !SameSlot(s[i], s[j], timestamp)
  }

  /** Appending an appointment whose slot no stored one holds keeps every
      doctor free of double bookings. */
  lemma {:induction false} AppendFreeSlot(s: seq<Record>, r: Record, doctorId: Value, date: Value,
                                          timestamp: Value -> Option<int>)
    requires Get(r.fields, "doctor_id") == Some(doctorId) && Get(r.fields, "date") == Some(date)
    requires !SlotTakenIn(s, doctorId, timestamp(date), timestamp)
    ensures NoDoubleBooking(s, timestamp) ==> NoDoubleBooking(s + [r], timestamp)
  {
    if NoDoubleBooking(s, timestamp) {
      var t := s + [r];
      forall i, j | 0 <= i < j < |t| ensures !SameSlot(t[i], t[j], timestamp) {
        if j == |s| {
          assert t[i] == s[i] && t[j] == r;
          assert !Clashes(s[i], doctorId, timestamp(date), timestamp);
        } else {
          assert t[i] == s[i] && t[j] == s[j];
        }
      }
    }
  }

  /** The existence checks PUT and PATCH run on a body: a given `patient_id`
      must be a stored patient's id, then a given `doctor_id` a stored
      doctor's id; each refusal is a 404. */
  function ReferenceCheck(patients: seq<Record>, doctors: seq<Record>, body: Object): (f: Option<Refusal>)
    ensures f.None? <==> ("patient_id" !in body || HasIdValue(patients, body["patient_id"]))
                         && ("doctor_id" !in body || HasIdValue(doctors, body["doctor_id"]))
    ensures "patient_id" in body && !HasIdValue(patients, body["patient_id"]) ==>
              f == Some(Unknown(PatientMissing(body["patient_id"])))
    ensures f.Some? ==> f.value.Unknown?
  {
    if "patient_id" in body && !HasIdValue(patients, body["patient_id"]) then
      Some(Unknown(PatientMissing(body["patient_id"])))
    else if "doctor_id" in body && !HasIdValue(doctors, body["doctor_id"]) then
      Some(Unknown(DoctorMissing(body["doctor_id"])))
    else None
  }

  /** `POST /`: 400 unless `patient_id`, `doctor_id` and `date` are truthy,
      then 404 for a patient id no stored patient has, then 404 for a doctor
      id no stored doctor has, then 409 exactly when a stored appointment of
      that doctor falls at the same instant, then 500 when the write fails;
      otherwise the new appointment is appended with the next id. */
  function RegisterSpec(s: seq<Record>, body: Object, patients: seq<Record>, doctors: seq<Record>,
                        timestamp: Value -> Option<int>, writeOk: bool): (o: Outcome)
    ensures !RequiredGiven(body) ==> o == Outcome(BadRequest(MissingFields), s)
    ensures RequiredGiven(body) && !HasIdValue(patients, body["patient_id"]) ==>
              o == Outcome(NotFound(PatientMissing(body["patient_id"])), s)
    ensures RequiredGiven(body) && HasIdValue(patients, body["patient_id"])
            && !HasIdValue(doctors, body["doctor_id"]) ==>
              o == Outcome(NotFound(DoctorMissing(body["doctor_id"])), s)
    ensures o.reply.Conflict? <==>
              && RequiredGiven(body)
              && HasIdValue(patients, body["patient_id"]) && HasIdValue(doctors, body["doctor_id"])
              && SlotTakenIn(s, body["doctor_id"], timestamp(body["date"]), timestamp)
    ensures o.reply.Conflict? ==> o == Outcome(Conflict(SlotTaken), s)
    ensures o.reply.Created? <==>
              && RequiredGiven(body)
              && HasIdValue(patients, body["patient_id"]) && HasIdValue(doctors, body["doctor_id"])
              && !SlotTakenIn(s, body["doctor_id"], timestamp(body["date"]), timestamp)
              && writeOk
    ensures o.reply.ServerError? ==> o == Outcome(ServerError(SaveFailed), s)
    ensures && RequiredGiven(body)
            && HasIdValue(patients, body["patient_id"]) && HasIdValue(doctors, body["doctor_id"])
            && !SlotTakenIn(s, body["doctor_id"], timestamp(body["date"]), timestamp)
            && !writeOk ==>
              o == Outcome(ServerError(SaveFailed), s)
    ensures o.reply.Created? ==>
              && o.store == s + [o.reply.value]
              && o.reply.value == ToObj(NewAppointment(s, Get(body, "patient_id"), Get(body, "doctor_id"),
                                                      Get(body, "date"), Get(body, "reason")))
    ensures !o.reply.Created? ==> o.store == s
    ensures Valid(s) ==> Valid(o.store)
    ensures NoDoubleBooking(s, timestamp) ==> NoDoubleBooking(o.store, timestamp)
  {
    if !RequiredGiven(body) then Outcome(BadRequest(MissingFields), s)
    else
      var patientId, doctorId, date := body["patient_id"], body["doctor_id"], body["date"];
      if !HasIdValue(patients, patientId) then Outcome(NotFound(PatientMissing(patientId)), s)
      else if !HasIdValue(doctors, doctorId) then Outcome(NotFound(DoctorMissing(doctorId)), s)
      else if SlotTakenIn(s, doctorId, timestamp(date), timestamp) then Outcome(Conflict(SlotTaken), s)
      else if !writeOk then Outcome(ServerError(SaveFailed), s)
      else
        var r := ToObj(NewAppointment(s, Some(patientId), Some(doctorId), Some(date), Get(body, "reason")));
        AppendKeepsValid(s, r);
        AppendFreeSlot(s, r, doctorId, date, timestamp);
        Outcome(Created(r), s + [r])
  }

  /** A stand-in date parser for the example below: the instant of a text
      is its length. */
  function LengthAsInstant(v: Value): Option<int> {
    if v.Str? then Some(|v.s|) else None
  }

  /** PUT skips the double-booking check: moving an appointment onto a slot
      its doctor already holds is accepted, and the list then double-books
      the doctor. */
  lemma UpdateCanDoubleBook()
    ensures var s := [Record(1, map["doctor_id" := Num(7), "date" := Str("A")]),
                      Record(2, map["doctor_id" := Num(7), "date" := Str("BB")])];
      var body := map["date" := Str("C")];
      var o := UpdateSpec(s, "2", body, PutKeys, ReferenceCheck([], [], body), Messages, true);
      && NoDoubleBooking(s, LengthAsInstant)
      && o.reply.Ok?
      && !NoDoubleBooking(o.store, LengthAsInstant)
  {
    var s := [Record(1, map["doctor_id" := Num(7), "date" := Str("A")]),
              Record(2, map["doctor_id" := Num(7), "date" := Str("BB")])];
    var body := map["date" := Str("C")];
    ParseIntDecimal(2);
    assert DecimalString(2) == "2";
    assert Position(s, "2") == 1;
    assert ReferenceCheck([], [], body) == None;
    var o := UpdateSpec(s, "2", body, PutKeys, ReferenceCheck([], [], body), Messages, true);
    var r := Rebuild(s[1], body, PutKeys);
    assert o.store == s[1 := r];
    assert Get(r.fields, "doctor_id") == Some(Num(7)) && Get(r.fields, "date") == Some(Str("C"));
    assert SameSlot(o.store[0], o.store[1], LengthAsInstant);
  }

  /** `a.patient_id === parseInt(text)` (and likewise for the doctor):
      never true for a text that is not a number. */
  predicate EqualsParsed(v: Option<Value>, p: Option<int>) {
    p.Some? && StrictEquals(v, Some(Num(p.value)))
  }

  /** `a.date.startsWith(prefix)`, which throws (None) when the stored date
      is not a string. */
  function DateTest(a: Record, prefix: string): (b: Option<bool>)
    ensures b.Some? <==> Get(a.fields, "date").Some? && a.fields["date"].Str?
    ensures b == Some(true) <==> Get(a.fields, "date").Some? && a.fields["date"].Str?
                                 && StartsWith(a.fields["date"].s, prefix)
  {
    match Get(a.fields, "date")
    case Some(Str(d)) => Some(StartsWith(d, prefix))
    case _ => None
  }

  /** Appointment a passes the patient and doctor filters, which run before
      the date filter and never throw. */
  predicate ReachesDateFilter(a: Record, q: map<string, string>) {
    && (Given(q, "patient_id") ==> EqualsParsed(Get(a.fields, "patient_id"), ParseInt(q["patient_id"])))
    && (Given(q, "doctor_id") ==> EqualsParsed(Get(a.fields, "doctor_id"), ParseInt(q["doctor_id"])))
  }

  /** Appointment a meets every criterion the query gives. */
  predicate Matches(a: Record, q: map<string, string>) {
    && ReachesDateFilter(a, q)
    && (Given(q, "date") ==> DateTest(a, q["date"]) == Some(true))
  }

  /** `GET /search`: the stored appointments that meet every given criterion,
      in stored order, or 500 exactly when the date filter meets, among the
      appointments the earlier filters kept, a date that is not a string. */
  function Search(s: seq<Record>, q: map<string, string>): (r: Reply<seq<Record>>)
    ensures r.Ok? || r == ServerError(SearchFailed)
    ensures r.Ok? ==> IsSubsequence(r.value, s)
    ensures r.Ok? ==> forall a | a in r.value :: Matches(a, q)
    ensures r.Ok? ==> forall a | a in s && Matches(a, q) :: a in r.value
    ensures (!Given(q, "date") || forall a | a in s :: DateTest(a, q["date"]).Some?) ==> r.Ok?
    ensures r.ServerError? <==>
              Given(q, "date") && exists a | a in s && ReachesDateFilter(a, q) :: DateTest(a, q["date"]).None?
    ensures r.Ok? && Valid(s) ==> Valid(r.value)
  {
    var byPatient := Stage(Some(s), Given(q, "patient_id"),
                           (a: Record) => Some(EqualsParsed(Get(a.fields, "patient_id"), ParseInt(Param(q, "patient_id")))));
    var byDoctor := Stage(byPatient, Given(q, "doctor_id"),
                          (a: Record) => Some(EqualsParsed(Get(a.fields, "doctor_id"), ParseInt(Param(q, "doctor_id")))));
    var byDate := Stage(byDoctor, Given(q, "date"), (a: Record) => DateTest(a, Param(q, "date")));
    if byDate.None? then ServerError(SearchFailed)
    else
      SubsequenceTransitive(byDoctor.value, byPatient.value, s);
      SubsequenceTransitive(byDate.value, byDoctor.value, s);
      SubsequenceKeepsValid(byDate.value, s);
      Ok(byDate.value)
  }

  /** The appointments file, and the handlers that change it. */
  class AppointmentsController {
    var appointments: seq<Record>

    constructor (stored: seq<Record>)
      ensures appointments == stored
    {
      appointments := stored;
    }

    /** `registerAppointment`, against its specification. */
    method Register(body: Object, patients: seq<Record>, doctors: seq<Record>,
                    timestamp: Value -> Option<int>, writeOk: bool) returns (r: Reply<Record>)
      modifies this
      ensures Outcome(r, appointments) == RegisterSpec(old(appointments), body, patients, doctors, timestamp, writeOk)
    {
      var patientId, doctorId, date := Get(body, "patient_id"), Get(body, "doctor_id"), Get(body, "date");
      if !Truthy(patientId) || !Truthy(doctorId) || !Truthy(date) {
        return BadRequest(MissingFields);
      }
      if !HasIdValue(patients, patientId.value) {
        return NotFound(PatientMissing(patientId.value));
      }
      if !HasIdValue(doctors, doctorId.value) {
        return NotFound(DoctorMissing(doctorId.value));
      }
      var newDate := timestamp(date.value);
      if SlotTakenIn(appointments, doctorId.value, newDate, timestamp) {
        return Conflict(SlotTaken);
      }
      var created := ToObj(NewAppointment(appointments, patientId, doctorId, date, Get(body, "reason")));
      if !writeOk {
        return ServerError(SaveFailed);
      }
      appointments := appointments + [created];
      r := Created(created);
    }

    /** `updateAppointment`: PUT over patient_id, doctor_id, date and reason,
        with the existence checks but no double-booking check. */
    method Update(idParam: string, body: Object, patients: seq<Record>, doctors: seq<Record>,
                  writeOk: bool) returns (r: Reply<Record>)
      modifies this
      ensures Outcome(r, appointments) ==
              UpdateSpec(old(appointments), idParam, body, PutKeys, ReferenceCheck(patients, doctors, body),
                         Messages, writeOk)
    {
      r, appointments := ApplyUpdate(appointments, idParam, body, PutKeys, ReferenceCheck(patients, doctors, body), Messages, writeOk);
    }

    /** `patchAppointment`: merge with the existence checks but no
        double-booking check. */
    method Patch(idParam: string, updates: Object, patients: seq<Record>, doctors: seq<Record>,
                 writeOk: bool) returns (r: Reply<Record>)
      modifies this
      ensures Outcome(r, appointments) ==
              PatchSpec(old(appointments), idParam, updates, ReferenceCheck(patients, doctors, updates),
                        Messages, writeOk)
    {
      r, appointments := ApplyPatch(appointments, idParam, updates, ReferenceCheck(patients, doctors, updates), Messages, writeOk);
    }

    /** `deleteAppointment`. */
    method Delete(idParam: string, writeOk: bool) returns (r: Reply<Record>)
      modifies this
      ensures Outcome(r, appointments) == DeleteSpec(old(appointments), idParam, Messages, writeOk)
    {
      r, appointments := ApplyDelete(appointments, idParam, Messages, writeOk);
    }
  }
}
