/** The patient entity: a class whose id is fixed at construction and whose
    other fields change through setters, the status one only to one of the
    three accepted words. */
module PatientModel {
  import opened Common
  import opened Json
  import opened JsText
  import opened Store

  /** `v == "Amigable" || v == "Peligroso" || v == "Inestable"`, with the
      loose equality the class uses. */
  predicate StatusAccepted(v: Option<Value>) {
    LooseEqualsWord(v, "Amigable") || LooseEqualsWord(v, "Peligroso") || LooseEqualsWord(v, "Inestable")
  }

  /** A string passes exactly when it is one of the three words; undefined,
      null, booleans and numbers never pass. */
  lemma StatusAcceptedStrings(v: Option<Value>)
    ensures v.Some? && v.value.Str? ==>
              (StatusAccepted(v) <==> v.value.s in {"Amigable", "Peligroso", "Inestable"})
    ensures v.None? || v.value.Null? || v.value.Bool? || v.value.Num? ==> !StatusAccepted(v)
  {
  }

  /** The loose comparison also lets through an array whose only element is
      one of the words, since the array is compared by its text. */
  lemma StatusAcceptsOneWordArray()
    ensures StatusAccepted(Some(Arr([Str("Peligroso")])))
    ensures !StatusAccepted(Some(Arr([Str("Peligroso"), Str("Sano")])))
  {
    assert ToJsString(Arr([Str("Peligroso")])) == "Peligroso";
    var two := [Str("Peligroso"), Str("Sano")];
    var parts := seq(|two|, i requires 0 <= i < |two| => if two[i].Null? then "" else ToJsString(two[i]));
    assert parts == ["Peligroso", "Sano"];
    assert Join(parts, ",") == "Peligroso" + "," + Join(["Sano"], ",");
    assert ToJsString(Arr(two)) == "Peligroso,Sano";
  }

  /** The object `toObj()` returns for the given field values: id, name,
      room_number, status, meds and next_checkup, but never the doctor; an
      undefined field leaves no key. */
  function PatientObject(id: int, name: Option<Value>, roomNumber: Option<Value>, status: Value,
                         meds: seq<Value>, nextCheckup: Option<Value>): (r: Record)
    ensures r.id == id
    ensures r.fields.Keys <= {"name", "room_number", "status", "meds", "next_checkup"}
    ensures "doctor" !in r.fields && "id" !in r.fields
    ensures Get(r.fields, "name") == name && Get(r.fields, "room_number") == roomNumber
    ensures Get(r.fields, "status") == Some(status) && Get(r.fields, "meds") == Some(Arr(meds))
    ensures Get(r.fields, "next_checkup") == nextCheckup
  {
    var base := map["status" := status, "meds" := Arr(meds)];
    Record(id, With(With(With(base, "name", name), "room_number", roomNumber), "next_checkup", nextCheckup))
  }

  /** What `setnext_checkup` may receive: a Date object, carried as the ISO
      text JSON gives it, or any other value. */
  datatype CheckupArg = DateObject(iso: string) | Other(v: Option<Value>)

  class Patient {
    const id: int
    var name: Option<Value>
    var roomNumber: Option<Value>
    var status: Value
    var doctor: Option<Value>
    var meds: seq<Value>
    var nextCheckup: Option<Value>

    /** The status is always one of the three words. */
    predicate Valid()
      reads this
    {
      StatusAccepted(Some(status))
    }

    /** The constructor once its two checks have passed: the id follows the
        last stored patient and every other field is the argument given. */
    constructor (stored: seq<Record>, name: Option<Value>, roomNumber: Option<Value>, status: Value,
                 doctor: Option<Value>, meds: seq<Value>, nextCheckup: Option<Value>)
      requires StatusAccepted(Some(status))
      ensures Valid()
      ensures id == NextId(stored)
      ensures this.name == name && this.roomNumber == roomNumber && this.status == status
      ensures this.doctor == doctor && this.meds == meds && this.nextCheckup == nextCheckup
    {
      this.id := NextId(stored);
      this.name := name;
      this.roomNumber := roomNumber;
      this.doctor := doctor;
      this.status := status;
      this.meds := meds;
      this.nextCheckup := nextCheckup;
    }

    /** `new Patient(name, room_number, status, doctor, meds = [], next_checkup)`:
        throws "Status No Valido" for a status that is not one of the words,
        then "Meds debe ser un arreglo" for meds that are given and not an
        array; otherwise builds the patient. */
    static method New(stored: seq<Record>, name: Option<Value>, roomNumber: Option<Value>,
                      status: Option<Value>, doctor: Option<Value>, meds: Option<Value>,
                      nextCheckup: Option<Value>) returns (r: Result<Patient, Exception>)
      ensures !StatusAccepted(status) ==> r == Failure(ModelException("Status No Valido"))
      ensures StatusAccepted(status) && meds.Some? && !meds.value.Arr? ==>
                r == Failure(ModelException("Meds debe ser un arreglo"))
      ensures r.Success? <==> StatusAccepted(status) && (meds.None? || meds.value.Arr?)
      ensures r.Success? ==>
                && fresh(r.value) && r.value.Valid() && r.value.id == NextId(stored)
                && r.value.name == name && r.value.roomNumber == roomNumber
                && Some(r.value.status) == status && r.value.doctor == doctor
                && r.value.meds == (if meds.None? then [] else meds.value.items)
                && r.value.nextCheckup == nextCheckup
    {
      if !StatusAccepted(status) {
        return Failure(ModelException("Status No Valido"));
      }
      var items: seq<Value> := [];
      if meds.Some? {
        if !meds.value.Arr? {
          return Failure(ModelException("Meds debe ser un arreglo"));
        }
        items := meds.value.items;
      }
      var p := new Patient(stored, name, roomNumber, status.value, doctor, items, nextCheckup);
      return Success(p);
    }

    /** `toObj()`: the stored object of this patient, without the doctor. */
    function ToObj(): (r: Record)
      reads this
      ensures r.id == id && "doctor" !in r.fields
      ensures Valid() ==> StatusAccepted(Get(r.fields, "status"))
      ensures r == PatientObject(id, name, roomNumber, status, meds, nextCheckup)
    {
      PatientObject(id, name, roomNumber, status, meds, nextCheckup)
    }

    /** `setname`: unconditional, and only the name changes. */
    method SetName(v: Option<Value>)
      modifies this`name
      ensures name == v
    {
      name := v;
    }

    /** `setroom_number`: unconditional, and only the room changes. */
    method SetRoomNumber(v: Option<Value>)
      modifies this`roomNumber
      ensures roomNumber == v
    {
      roomNumber := v;
    }

    /** `setstatus`: takes one of the three words and otherwise throws
        "Status No Valido" with the status unchanged. */
    method SetStatus(v: Option<Value>) returns (e: Option<Exception>)
      modifies this`status
      ensures StatusAccepted(v) ==> e.None? && Some(status) == v
      ensures !StatusAccepted(v) ==> e == Some(ModelException("Status No Valido")) && status == old(status)
      ensures old(Valid()) ==> Valid()
    {
      if StatusAccepted(v) {
        status := v.value;
        e := None;
      } else {
        e := Some(ModelException("Status No Valido"));
      }
    }

    /** `setmeds`: a non-array throws "Meds debe ser un arreglo". For an
        array the loop assigns its elements to the undeclared `id`, which
        throws a ReferenceError in a class body on the first element, so
        only the empty array gets stored. */
    method SetMeds(v: Option<Value>) returns (e: Option<Exception>)
      modifies this`meds
      ensures !IsArray(v) ==> e == Some(ModelException("Meds debe ser un arreglo"))
      ensures IsArray(v) && v.value.items != [] ==> e == Some(ReferenceError("id"))
      ensures e.None? <==> v == Some(Arr([]))
      ensures e.None? ==> meds == []
      ensures e.Some? ==> meds == old(meds)
    {
      if !IsArray(v) {
        e := Some(ModelException("Meds debe ser un arreglo"));
      } else if v.value.items != [] {
        e := Some(ReferenceError("id"));
      } else {
        meds := [];
        e := None;
      }
    }

    /** `setdoctor`: reads the undeclared `doctorsD` first, so it always
        throws a ReferenceError and the doctor never changes. */
    method SetDoctor(v: Option<Value>) returns (e: Option<Exception>)
      ensures e == Some(ReferenceError("doctorsD"))
    {
      e := Some(ReferenceError("doctorsD"));
    }

    /** `setnext_checkup`: takes only a Date and otherwise throws "Fecha
        ingresada no valida" with the field unchanged. */
    method SetNextCheckup(arg: CheckupArg) returns (e: Option<Exception>)
      modifies this`nextCheckup
      ensures arg.DateObject? ==> e.None? && nextCheckup == Some(Str(arg.iso))
      ensures arg.Other? ==> e == Some(ModelException("Fecha ingresada no valida"))
                             && nextCheckup == old(nextCheckup)
    {
      match arg
      case DateObject(iso) =>
        nextCheckup := Some(Str(iso));
        e := None;
      case Other(_) =>
        e := Some(ModelException("Fecha ingresada no valida"));
    }
  }
}
