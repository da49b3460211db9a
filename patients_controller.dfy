/** The patients handlers: register with its status and meds checks, PUT,
    PATCH and DELETE on the patients list, and the queries over it. */
module PatientsApi {
  import opened Common
  import opened Json
  import opened JsText
  import opened Store
  import opened PatientModel

  const Messages := Texts("ID de paciente inválido", "Paciente con ID ", " no encontrado",
                          "No se puede modificar el ID del paciente", "Error al actualizar el paciente",
                          "Error al eliminar el paciente")
  const MissingFields := "Faltan campos obligatorios: name, room_number, status, doctor"
  const ValidStatuses: seq<string> := ["Amigable", "Peligroso", "Inestable"]
  const StatusInvalid := "Status inválido. Valores permitidos: Amigable, Peligroso, Inestable"
  const MedsNotArray := "El campo 'meds' debe ser un arreglo de IDs de medicamentos"
  const SaveFailed := "Error al guardar el paciente"
  const SearchFailed := "Error al buscar pacientes"

  /** The fields PUT rebuilds. */
  const PutKeys: set<string> := {"name", "room_number", "status", "doctor", "meds", "next_checkup"}

  /** `validStatuses.includes(v)`: a string equal to one of the words. */
  predicate ValidStatus(v: Option<Value>) {
    v.Some? && v.value.Str? && v.value.s in ValidStatuses
  }

  /** The handler's strict check is narrower than the class's loose one:
      whatever it lets through, the class accepts too. */
  lemma ValidStatusAccepted(v: Option<Value>)
    requires ValidStatus(v)
    ensures StatusAccepted(v)
  {
    StatusAcceptedStrings(v);
  }

  /** `name`, `room_number`, `status` and `doctor` are all truthy. */
  predicate RequiredGiven(body: Object) {
    && Truthy(Get(body, "name")) && Truthy(Get(body, "room_number"))
    && Truthy(Get(body, "status")) && Truthy(Get(body, "doctor"))
  }

  /** The checks PUT and PATCH run on a body: a truthy status must be one of
      the words (so an empty status passes), then a given `meds` must be an
      array; each refusal is a 400. */
  function BodyCheck(body: Object): (f: Option<Refusal>)
    ensures f.None? <==> (!Truthy(Get(body, "status")) || ValidStatus(Get(body, "status")))
                         && ArrayOrAbsent(Get(body, "meds"))
    ensures Truthy(Get(body, "status")) && !ValidStatus(Get(body, "status")) ==>
              f == Some(BadInput(StatusInvalid))
    ensures f.Some? ==> f == Some(BadInput(StatusInvalid)) || f == Some(BadInput(MedsNotArray))
  {
    if Truthy(Get(body, "status")) && !ValidStatus(Get(body, "status")) then Some(BadInput(StatusInvalid))
    else if !ArrayOrAbsent(Get(body, "meds")) then Some(BadInput(MedsNotArray))
    else None
  }

  /** `POST /`: 400 unless the four required fields are truthy, then 400 for
      a status that is not one of the words, then 400 for `meds` given and
      not an array, then 500 when the write fails; otherwise the patient's
      `toObj()` is appended: the next id, meds defaulting to [], and no
      doctor. */
  function RegisterSpec(s: seq<Record>, body: Object, writeOk: bool): (o: Outcome)
    ensures !RequiredGiven(body) ==> o == Outcome(BadRequest(MissingFields), s)
    ensures RequiredGiven(body) && !ValidStatus(Get(body, "status")) ==>
              o == Outcome(BadRequest(StatusInvalid), s)
    ensures RequiredGiven(body) && ValidStatus(Get(body, "status")) && !ArrayOrAbsent(Get(body, "meds")) ==>
              o == Outcome(BadRequest(MedsNotArray), s)
    ensures o.reply.Created? <==>
              RequiredGiven(body) && ValidStatus(Get(body, "status")) && ArrayOrAbsent(Get(body, "meds")) && writeOk
    ensures o.reply.ServerError? ==> o == Outcome(ServerError(SaveFailed), s)
    ensures RequiredGiven(body) && ValidStatus(Get(body, "status")) && ArrayOrAbsent(Get(body, "meds")) && !writeOk ==>
              o == Outcome(ServerError(SaveFailed), s)
    ensures o.reply.Created? ==>
              && o.store == s + [o.reply.value]
              && o.reply.value == PatientObject(NextId(s), Get(body, "name"), Get(body, "room_number"),
                                                body["status"], ItemsOrEmpty(Get(body, "meds")),
                                                Get(body, "next_checkup"))
              && "doctor" !in o.reply.value.fields
    ensures !o.reply.Created? ==> o.store == s
    ensures Valid(s) ==> Valid(o.store)
  {
    if !RequiredGiven(body) then Outcome(BadRequest(MissingFields), s)
    else if !ValidStatus(Get(body, "status")) then Outcome(BadRequest(StatusInvalid), s)
    else if !ArrayOrAbsent(Get(body, "meds")) then Outcome(BadRequest(MedsNotArray), s)
    else if !writeOk then Outcome(ServerError(SaveFailed), s)
    else
      var r := PatientObject(NextId(s), Get(body, "name"), Get(body, "room_number"), body["status"],
                             ItemsOrEmpty(Get(body, "meds")), Get(body, "next_checkup"));
      AppendKeepsValid(s, r);
      Outcome(Created(r), s + [r])
  }

  /** `p.status === status` */
  function StatusTest(x: Record, status: string): (b: Option<bool>)
    ensures b.Some? && (b.value <==> Get(x.fields, "status") == Some(Str(status)))
  {
    Some(StrictEquals(Get(x.fields, "status"), Some(Str(status))))
  }

  /** `p.room_number.toString() === room_number.toString()`, which throws
      (None) when the room is undefined or null. */
  function RoomTest(x: Record, room: string): (b: Option<bool>)
    ensures b.Some? <==> "room_number" in x.fields && !x.fields["room_number"].Null?
    ensures b.Some? ==> (b.value <==> ToJsString(x.fields["room_number"]) == room)
  {
    match Get(x.fields, "room_number")
    case None => None
    case Some(Null) => None
    case Some(v) => Some(ToJsString(v) == room)
  }

  /** Patient x passes the name and status filters, the ones that run
      before the doctor filter. */
  predicate ReachesDoctorFilter(x: Record, q: map<string, string>) {
    && (Given(q, "name") ==> ContainsTest(x, "name", q["name"]) == Some(true))
    && (Given(q, "status") ==> Get(x.fields, "status") == Some(Str(q["status"])))
  }

  /** Patient x passes every filter that runs before the room filter. */
  predicate ReachesRoomFilter(x: Record, q: map<string, string>) {
    && ReachesDoctorFilter(x, q)
    && (Given(q, "doctor") ==> ContainsTest(x, "doctor", q["doctor"]) == Some(true))
  }

  /** Patient x meets every criterion the query gives. */
  predicate Matches(x: Record, q: map<string, string>) {
    && ReachesRoomFilter(x, q)
    && (Given(q, "room_number") ==> RoomTest(x, q["room_number"]) == Some(true))
  }

  /** The name and status filters in turn. The status filter never throws,
      so the pair fails exactly when the name filter does, and otherwise it
      keeps the patients that reach the doctor filter. */
  function FilterToDoctor(s: seq<Record>, q: map<string, string>): (r: Option<seq<Record>>)
    ensures r.Some? <==> !Given(q, "name") || forall x | x in s :: ContainsTest(x, "name", q["name"]).Some?
    ensures r.Some? ==> IsSubsequence(r.value, s)
    ensures r.Some? ==> forall x | x in r.value :: x in s && ReachesDoctorFilter(x, q)
    ensures r.Some? ==> forall x | x in s && ReachesDoctorFilter(x, q) :: x in r.value
  {
    var byName := Stage(Some(s), Given(q, "name"), (x: Record) => ContainsTest(x, "name", Param(q, "name")));
    assert Given(q, "name") ==> Param(q, "name") == q["name"];
    assert Given(q, "status") ==> Param(q, "status") == q["status"];
    var byStatus := Stage(byName, Given(q, "status"), (x: Record) => StatusTest(x, Param(q, "status")));
    if byName.None? then byStatus
    else
      assert byStatus.Some?;
      SubsequenceTransitive(byStatus.value, byName.value, s);
      byStatus
  }

  /** Then the doctor filter, which throws on a kept patient whose doctor
      is not a string. */
  function FilterToRoom(s: seq<Record>, q: map<string, string>): (r: Option<seq<Record>>)
    ensures r.Some? <==>
              && FilterToDoctor(s, q).Some?
              && (!Given(q, "doctor") ||
                  forall x | x in s && ReachesDoctorFilter(x, q) :: ContainsTest(x, "doctor", q["doctor"]).Some?)
    ensures r.Some? ==> IsSubsequence(r.value, s)
    ensures r.Some? ==> forall x | x in r.value :: x in s && ReachesRoomFilter(x, q)
    ensures r.Some? ==> forall x | x in s && ReachesRoomFilter(x, q) :: x in r.value
  {
    var before := FilterToDoctor(s, q);
    var byDoctor := Stage(before, Given(q, "doctor"), (x: Record) => ContainsTest(x, "doctor", Param(q, "doctor")));
    if byDoctor.Some? then SubsequenceTransitive(byDoctor.value, before.value, s); byDoctor
    else byDoctor
  }

  /** `GET /search`: the stored patients that meet every given criterion, in
      stored order, or 500 exactly when a filter meets, among the patients
      the earlier filters kept, a field that is not a string (or a room that
      is undefined or null). */
  function Search(s: seq<Record>, q: map<string, string>): (r: Reply<seq<Record>>)
    ensures r.Ok? || r == ServerError(SearchFailed)
    ensures r.Ok? ==> IsSubsequence(r.value, s)
    ensures r.Ok? ==> forall x | x in r.value :: Matches(x, q)
    ensures r.Ok? ==> forall x | x in s && Matches(x, q) :: x in r.value
    ensures r.ServerError? <==>
              || (Given(q, "name") && exists x | x in s :: ContainsTest(x, "name", q["name"]).None?)
              || (Given(q, "doctor") &&
                  exists x | x in s && ReachesDoctorFilter(x, q) :: ContainsTest(x, "doctor", q["doctor"]).None?)
              || (Given(q, "room_number") &&
                  exists x | x in s && ReachesRoomFilter(x, q) :: RoomTest(x, q["room_number"]).None?)
    ensures Given(q, "doctor") && !Given(q, "name") && !Given(q, "status") ==>
              (exists x | x in s :: "doctor" !in x.fields) ==> r == ServerError(SearchFailed)
    ensures r.Ok? && Valid(s) ==> Valid(r.value)
  {
    var before := FilterToRoom(s, q);
    var byRoom := Stage(before, Given(q, "room_number"), (x: Record) => RoomTest(x, Param(q, "room_number")));
    if byRoom.None? then ServerError(SearchFailed)
    else
      SubsequenceTransitive(byRoom.value, before.value, s);
      SubsequenceKeepsValid(byRoom.value, s);
      Ok(byRoom.value)
  }

  /** Register stores no doctor, so once a patient is registered a search by
      doctor alone answers 500. */
  lemma {:induction false} DoctorSearchFailsAfterRegister(s: seq<Record>, body: Object, q: map<string, string>)
    requires RegisterSpec(s, body, true).reply.Created?
    requires Given(q, "doctor") && !Given(q, "name") && !Given(q, "status")
    ensures Search(RegisterSpec(s, body, true).store, q) == ServerError(SearchFailed)
  {
    var o := RegisterSpec(s, body, true);
    assert o.reply.value in o.store;
  }

  /** The patients file, and the handlers that change it. */
  class PatientsController {
    var patients: seq<Record>

    constructor (stored: seq<Record>)
      ensures patients == stored
    {
      patients := stored;
    }

    /** `registerPatient`: checks the body, builds a `Patient` and stores its
        `toObj()`, against its specification. */
    method Register(body: Object, writeOk: bool) returns (r: Reply<Record>)
      modifies this
      ensures Outcome(r, patients) == RegisterSpec(old(patients), body, writeOk)
    {
      var name, room, status, doctor := Get(body, "name"), Get(body, "room_number"), Get(body, "status"),
                                        Get(body, "doctor");
      var meds := if "meds" in body then body["meds"] else Arr([]);
      if !Truthy(name) || !Truthy(room) || !Truthy(status) || !Truthy(doctor) {
        return BadRequest(MissingFields);
      }
      if !ValidStatus(status) {
        return BadRequest(StatusInvalid);
      }
      if !meds.Arr? {
        return BadRequest(MedsNotArray);
      }
      ValidStatusAccepted(status);
      var patient := new Patient(patients, name, room, status.value, doctor, meds.items, Get(body, "next_checkup"));
      var created := patient.ToObj();
      if !writeOk {
        return ServerError(SaveFailed);
      }
      patients := patients + [created];
      r := Created(created);
    }

    /** `updatePatient`: PUT over the six fields. */
    method Update(idParam: string, body: Object, writeOk: bool) returns (r: Reply<Record>)
      modifies this
      ensures Outcome(r, patients) ==
              UpdateSpec(old(patients), idParam, body, PutKeys, BodyCheck(body), Messages, writeOk)
    {
      r, patients := ApplyUpdate(patients, idParam, body, PutKeys, BodyCheck(body), Messages, writeOk);
    }

    /** `patchPatient`. */
    method Patch(idParam: string, updates: Object, writeOk: bool) returns (r: Reply<Record>)
      modifies this
      ensures Outcome(r, patients) == PatchSpec(old(patients), idParam, updates, BodyCheck(updates), Messages, writeOk)
    {
      r, patients := ApplyPatch(patients, idParam, updates, BodyCheck(updates), Messages, writeOk);
    }

    /** `deletePatient`. */
    method Delete(idParam: string, writeOk: bool) returns (r: Reply<Record>)
      modifies this
      ensures Outcome(r, patients) == DeleteSpec(old(patients), idParam, Messages, writeOk)
    {
      r, patients := ApplyDelete(patients, idParam, Messages, writeOk);
    }
  }
}
