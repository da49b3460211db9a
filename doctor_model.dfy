/** The doctor entity: a class whose id is fixed at construction, with
    unconditional setters for name, email and password and array-checking
    setters for its patient and appointment lists. */
module DoctorModel {
  import opened Common
  import opened Json
  import opened Store

  /** The object `toObj()` returns: all six fields, the password included in
      plain text; an undefined field leaves no key. */
  function DoctorObject(id: int, name: Option<Value>, email: Option<Value>, password: Option<Value>,
                        patients: seq<Value>, appointments: seq<Value>): (r: Record)
    ensures r.id == id && "id" !in r.fields
    ensures r.fields.Keys <= {"name", "email", "password", "patients", "appointments"}
    ensures Get(r.fields, "name") == name && Get(r.fields, "email") == email
    ensures Get(r.fields, "password") == password
    ensures Get(r.fields, "patients") == Some(Arr(patients))
    ensures Get(r.fields, "appointments") == Some(Arr(appointments))
  {
    var base := map["patients" := Arr(patients), "appointments" := Arr(appointments)];
    Record(id, With(With(With(base, "name", name), "email", email), "password", password))
  }

  class Doctor {
    const id: int
    var name: Option<Value>
    var email: Option<Value>
    var password: Option<Value>
    var patients: seq<Value>
    var appointments: seq<Value>

    /** The constructor once both lists are arrays: the id follows the last
        stored doctor and every other field is the argument given. */
    constructor (stored: seq<Record>, name: Option<Value>, email: Option<Value>, password: Option<Value>,
                 patients: seq<Value>, appointments: seq<Value>)
      ensures id == NextId(stored)
      ensures this.name == name && this.email == email && this.password == password
      ensures this.patients == patients && this.appointments == appointments
    {
      this.id := NextId(stored);
      this.name := name;
      this.email := email;
      this.password := password;
      this.patients := patients;
      this.appointments := appointments;
    }

    /** `new Doctor(name, email, password, patients = [], appointments = [])`:
        throws "Patients debe ser un arreglo", then "Appointments debe ser un
        arreglo", for a list that is given and not an array. */
    static method New(stored: seq<Record>, name: Option<Value>, email: Option<Value>,
                      password: Option<Value>, patients: Option<Value>,
                      appointments: Option<Value>) returns (r: Result<Doctor, Exception>)
      ensures patients.Some? && !patients.value.Arr? ==>
                r == Failure(ModelException("Patients debe ser un arreglo"))
      ensures (patients.None? || patients.value.Arr?) && appointments.Some? && !appointments.value.Arr? ==>
                r == Failure(ModelException("Appointments debe ser un arreglo"))
      ensures r.Success? <==> (patients.None? || patients.value.Arr?)
                              && (appointments.None? || appointments.value.Arr?)
      ensures r.Success? ==>
                && fresh(r.value) && r.value.id == NextId(stored)
                && r.value.name == name && r.value.email == email && r.value.password == password
                && r.value.patients == (if patients.None? then [] else patients.value.items)
                && r.value.appointments == (if appointments.None? then [] else appointments.value.items)
    {
      var ps: seq<Value> := [];
      if patients.Some? {
        if !patients.value.Arr? {
          return Failure(ModelException("Patients debe ser un arreglo"));
        }
        ps := patients.value.items;
      }
      var apps: seq<Value> := [];
      if appointments.Some? {
        if !appointments.value.Arr? {
          return Failure(ModelException("Appointments debe ser un arreglo"));
        }
        apps := appointments.value.items;
      }
      var d := new Doctor(stored, name, email, password, ps, apps);
      return Success(d);
    }

    /** `toObj()`: the stored object of this doctor. */
    function ToObj(): (r: Record)
      reads this
      ensures r.id == id
      ensures r == DoctorObject(id, name, email, password, patients, appointments)
    {
      DoctorObject(id, name, email, password, patients, appointments)
    }

    /** `setname`: unconditional, and only the name changes. */
    method SetName(v: Option<Value>)
      modifies this`name
      ensures name == v
    {
      name := v;
    }

    /** `setemail`: unconditional (no format check), and only the email
        changes. */
    method SetEmail(v: Option<Value>)
      modifies this`email
      ensures email == v
    {
      email := v;
    }

    /** `setpassword`: unconditional, and only the password changes. */
    method SetPassword(v: Option<Value>)
      modifies this`password
      ensures password == v
    {
      password := v;
    }

    /** `setpatients`: takes only an array; otherwise throws "Patients debe
        ser un arreglo" with the list unchanged. */
    method SetPatients(v: Option<Value>) returns (e: Option<Exception>)
      modifies this`patients
      ensures IsArray(v) ==> e.None? && patients == v.value.items
      ensures !IsArray(v) ==>
                e == Some(ModelException("Patients debe ser un arreglo")) && patients == old(patients)
    {
      if IsArray(v) {
        patients := v.value.items;
        e := None;
      } else {
        e := Some(ModelException("Patients debe ser un arreglo"));
      }
    }

    /** `setappointments`: takes only an array; otherwise throws
        "Appointments debe ser un arreglo" with the list unchanged. */
    method SetAppointments(v: Option<Value>) returns (e: Option<Exception>)
      modifies this`appointments
      ensures IsArray(v) ==> e.None? && appointments == v.value.items
      ensures !IsArray(v) ==>
                e == Some(ModelException("Appointments debe ser un arreglo")) && appointments == old(appointments)
    {
      if IsArray(v) {
        appointments := v.value.items;
        e := None;
      } else {
        e := Some(ModelException("Appointments debe ser un arreglo"));
      }
    }
  }
}
