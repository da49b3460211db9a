# Clinic REST API — verified model of the backend handlers

This project models the backend of a clinic management REST API. The
backend has four resources: appointments (citas), patients (pacientes),
doctors and medications (medicamentos). Each resource is a JSON file that
holds a list of records. Its handlers read the list, check the request,
change the list in place (`push`, index assignment, `splice`) and write it
back. Their answers are 201, 200, 400, 404, 409 or 500.

Beside the handlers sit four model classes. Each one assigns the next id
(the last record's id + 1, or 1 for an empty list) and has a `toObj()` that
decides which fields get stored. The patient and doctor classes also have
validating setters.

The model is organised as follows:

- `common.dfy` (`Common`) holds `Option`, `Result` and the reply type
  `Reply`, whose cases carry the status codes.
- `jstext.dfy` (`JsText`) models the JavaScript text operations the
  handlers use: `parseInt`, ASCII `toLowerCase`, `includes`, `startsWith`
  and the `\s` character class.
- `json.dfy` (`Json`) models JSON values and the JavaScript semantics the
  handlers rely on: truthiness, `Array.isArray`, `===`, loose `==` against a
  word, and `String(v)`. An `undefined` field is an absent key.
- `store.dfy` (`Store`) models what the four resources share. A list of
  `Record(id, fields)` has an invariant: ids strictly increasing, and no
  `id` key among the fields. `Store` defines the next id, lookup by id,
  pagination, filtering into a subsequence, and the PUT, PATCH and DELETE
  steps as specification functions (`UpdateSpec`, `PatchSpec`,
  `DeleteSpec`). `ApplyUpdate`, `ApplyPatch` and `ApplyDelete` are the
  imperative steps proved against those functions. Each resource supplies
  its own field list, its body check and its message texts.
- `*_model.dfy` model the entity classes. The appointment is a datatype,
  because it has no setters. Patient, doctor and medication are Dafny
  classes whose setters carry `modifies` frames.
- `*_controller.dfy` model the four controllers. Each one has:
  - a pure specification of its register handler (`RegisterSpec`);
  - its body checks and search;
  - a class holding the resource's list as a `seq` field, with methods
    `Register`, `Update`, `Patch` and `Delete`. Each method changes that
    field and is proved equal to the corresponding specification.

File input and output become parameters. The list read from the file is the
state, and whether the write succeeds is `writeOk`. The appointment date
parser (`new Date(v).getTime()`) is the function parameter `timestamp`,
where `None` stands for NaN.

## Model

| member | source | states |
|---|---|---|
| Store.NextId | BACKEND/models/appointments.js:5-8 | the next id is 1 for an empty list and exceeds every stored id when ids increase |
| Store.NextIdFollowsLastRecord | BACKEND/models/patients.js:5-8 | the next id follows the last record, not the largest id |
| Store.DeletedLastIdIsReused | BACKEND/models/doctors.js:5-8 | after the last record is deleted, its id is handed out again |
| Store.IncreasingIdsAreUnique | BACKEND/models/meds.js:5-8 | strictly increasing ids are unique |
| Store.AppendKeepsValid | BACKEND/controllers/patients_api_controller.js:62-68 | appending a record that carries the next id keeps ids increasing and unique |
| Store.IndexOfId | BACKEND/controllers/appointments_api_controller.js:207 | `findIndex`: the first position holding the id, or -1 exactly when no record holds it |
| Store.Position | BACKEND/controllers/appointments_api_controller.js:197-212 | -1 for an id parameter that is not a number or is held by no record; otherwise the first record holding the parsed id |
| Store.GetById | BACKEND/controllers/appointments_api_controller.js:172-192 | 400 for a non-numeric id, 404 when no record holds it, otherwise 200 with the first stored record holding that id, as `find` returns |
| Store.GetByIdFindsStored | BACKEND/controllers/patients_api_controller.js:127-147 | in a valid list, looking up the decimal text of a record's id finds exactly that record |
| Store.QueryInt | BACKEND/controllers/appointments_api_controller.js:139-140 | `parseInt(q) \|\| default`: never 0, the default when the parameter is missing or parses to 0 or NaN |
| Store.JsSlice | BACKEND/controllers/appointments_api_controller.js:145 | `slice`: for ordered non-negative bounds the clipped slice, for crossed ones the empty list, and always a contiguous part of the list |
| Store.SliceNegativeBounds | BACKEND/controllers/appointments_api_controller.js:145 | a negative `slice` bound counts from the end: it means the position that many records before the end, or 0 |
| Store.CeilDiv | BACKEND/controllers/appointments_api_controller.js:151 | `Math.ceil(a / b)` bounded above and below for either sign of b |
| Store.PageOf | BACKEND/controllers/doctors_api_controller.js:132-146 | page, limit and total echo the inputs; for page and limit at least 1 the data is the slice from (page-1)*limit to page*limit, clipped; totalPages is the ceiling of total/limit |
| Store.Paginate | BACKEND/controllers/meds_api_controller.js:94-107 | page and limit are `parseInt(...) || 1` and `parseInt(...) || 10` of the query (so 1 and 10 when missing), total is the list's length, and the answer is that page of the list |
| Store.EveryRecordOnOnePage | BACKEND/controllers/patients_api_controller.js:94-107 | with a positive limit, every record is on exactly one page, page i/limit + 1 |
| Store.RecordOnItsPage | BACKEND/controllers/patients_api_controller.js:94-107 | record i is on page i/limit + 1, within the page count, at place i % limit of that page |
| Store.OnlyOnePage | BACKEND/controllers/patients_api_controller.js:94-107 | no other page holds record i |
| Store.Rebuild | BACKEND/controllers/doctors_api_controller.js:224-229 | PUT's record keeps the id, takes the body's value for each named field it gives, keeps the old value for the others, and drops every field outside the named ones |
| Store.RebuildIdempotent | BACKEND/controllers/meds_api_controller.js:179-185 | repeating the same PUT changes nothing more |
| Store.Merge | BACKEND/controllers/patients_api_controller.js:294-298 | PATCH's record keeps the id, takes every field of the body and keeps every other old field |
| Store.MergeIdempotent | BACKEND/controllers/meds_api_controller.js:272-276 | repeating the same PATCH changes nothing more |
| Store.ReplaceKeepsValid | BACKEND/controllers/appointments_api_controller.js:231-237 | replacing a record by one with the same id keeps the list's invariant |
| Store.RemovedAt | BACKEND/controllers/meds_api_controller.js:223 | `splice(i, 1)` leaves one record fewer, the ones before i in place and the ones after shifted down by one |
| Store.RemovedById | BACKEND/controllers/doctors_api_controller.js:260-267 | in a valid list, removing the record found for an id leaves no record with that id and keeps all others |
| Store.SpliceOut | BACKEND/controllers/patients_api_controller.js:228-235 | what splicing one record out leaves: a shorter, valid subsequence without that id |
| Store.SubsequenceKeepsValid | BACKEND/controllers/appointments_api_controller.js:362-376 | filtering a valid list yields a valid list |
| Store.SubsequenceTransitive | BACKEND/controllers/patients_api_controller.js:325-345 | chained filters still give a subsequence of the stored list |
| Store.FilterOrFail | BACKEND/controllers/doctors_api_controller.js:354-358 | `filter`: defined exactly when the callback returns on every element; keeps exactly the elements it accepts |
| Store.SubsequenceOfTail | BACKEND/controllers/meds_api_controller.js:303-313 | a subsequence of a list's tail is one of the list, with or without its head in front |
| Store.FilterIsSubsequence | BACKEND/controllers/meds_api_controller.js:303-313 | a filtered list is an order-preserving subsequence |
| Store.Stage | BACKEND/controllers/patients_api_controller.js:331-333 | `if (param) list = list.filter(...)`: skipped when inactive, otherwise keeps exactly the accepted elements or fails when the callback throws |
| Store.ContainsTest | BACKEND/controllers/meds_api_controller.js:304-306 | `x.key.toLowerCase().includes(text.toLowerCase())`: throws unless the field is a string, true exactly when it contains the text ignoring ASCII case |
| Store.UpdateSpec | BACKEND/controllers/appointments_api_controller.js:195-255 | PUT: 400 for a non-numeric id, then 404, then the resource's refusal, then 500; on success only the found record is rebuilt; on error the list is unchanged; ids never change and the invariant is kept |
| Store.PatchSpec | BACKEND/controllers/appointments_api_controller.js:293-353 | PATCH: 400 for a non-numeric id, then 400 for an `id` in the body before the list is read, then 404, then the refusal, then 500; on success only the found record is merged; ids never change |
| Store.DeleteSpec | BACKEND/controllers/appointments_api_controller.js:258-290 | DELETE: 400, 404, then 500; on success it answers the removed record and the list loses exactly that record, keeping order; the list is always a subsequence of the old one |
| Store.ApplyUpdate | BACKEND/controllers/patients_api_controller.js:150-215 | the PUT steps compute exactly UpdateSpec's answer and list |
| Store.ApplyPatch | BACKEND/controllers/doctors_api_controller.js:285-345 | the PATCH steps compute exactly PatchSpec's answer and list |
| Store.ApplyDelete | BACKEND/controllers/meds_api_controller.js:206-238 | the DELETE steps, with the splice, compute exactly DeleteSpec's answer and list |
| JsText.ToLower | BACKEND/controllers/doctors_api_controller.js:356 | `toLowerCase` folds each ASCII letter and keeps the length |
| JsText.Includes | BACKEND/controllers/patients_api_controller.js:327 | `includes` is true exactly when the needle occurs at some position |
| JsText.ParseInt | BACKEND/controllers/appointments_api_controller.js:196 | `parseInt`: a number only when some digit is present |
| JsText.ParseUnsigned | BACKEND/controllers/appointments_api_controller.js:196 | the unsigned part of `parseInt`: a number only when some digit is present |
| JsText.ParseUnsignedDigits | BACKEND/controllers/meds_api_controller.js:129 | a run of decimal digits is read as its decimal value |
| JsText.ParseIntUntrimmed | BACKEND/controllers/meds_api_controller.js:129 | text with no leading whitespace is read from its sign, or from its first character when it has none |
| JsText.ParseIntDecimal | BACKEND/controllers/meds_api_controller.js:129 | `parseInt` reads back the decimal text of any integer |
| JsText.DigitStringValue | BACKEND/controllers/meds_api_controller.js:139 | the digits written for a number denote that number |
| AppointmentModel.NewAppointment | BACKEND/models/appointments.js:23-29 | the constructor stores its four arguments and takes the next id: 1 for an empty list, above every stored id, keeping ids increasing |
| AppointmentModel.ToObj | BACKEND/models/appointments.js:30-37 | `toObj` holds only patient_id, doctor_id, date and reason, with the constructor's values |
| AppointmentModel.ToObjRoundTrip | BACKEND/models/appointments.js:39-53 | reading the getters back from the stored object gives the appointment back |
| AppointmentModel.FromRecordRoundTrip | BACKEND/models/appointments.js:30-53 | a record with only those four fields is the `toObj` of the appointment read from it |
| AppointmentsApi.AppendFreeSlot | BACKEND/controllers/appointments_api_controller.js:96-113 | appending an appointment whose slot is free keeps every doctor free of double bookings |
| AppointmentsApi.ReferenceCheck | BACKEND/controllers/appointments_api_controller.js:217-229 | PUT and PATCH refuse with 404 a given patient id that no patient has, then a given doctor id that no doctor has |
| AppointmentsApi.RegisterSpec | BACKEND/controllers/appointments_api_controller.js:71-131 | 400 for a missing field, 404 for an unknown patient then doctor, 409 exactly when the doctor already has an appointment at that instant, then 500 exactly when those checks pass and the write fails; otherwise one record is appended with the next id; the list is unchanged on errors; no double booking is kept |
| AppointmentsApi.UpdateCanDoubleBook | BACKEND/controllers/appointments_api_controller.js:231-237 | PUT runs no conflict check, so it can put two appointments of a doctor at the same instant |
| AppointmentsApi.DateTest | BACKEND/controllers/appointments_api_controller.js:372-375 | the date filter throws unless the date is a string, and accepts exactly dates that start with the query |
| AppointmentsApi.Search | BACKEND/controllers/appointments_api_controller.js:356-386 | an order-preserving subsequence holding exactly the stored appointments that match every given criterion; 500 exactly when a date is asked for and some appointment that passed the patient and doctor filters has a date that is not a string |
| AppointmentsApi.AppointmentsController.constructor | BACKEND/controllers/appointments_api_controller.js:15-23 | the controller starts from the list read from the file |
| AppointmentsApi.AppointmentsController.Register | BACKEND/controllers/appointments_api_controller.js:71-131 | the handler's answer and new list are RegisterSpec's |
| AppointmentsApi.AppointmentsController.Update | BACKEND/controllers/appointments_api_controller.js:195-255 | the handler's answer and new list are UpdateSpec's with the existence checks |
| AppointmentsApi.AppointmentsController.Patch | BACKEND/controllers/appointments_api_controller.js:293-353 | the handler's answer and new list are PatchSpec's with the existence checks |
| AppointmentsApi.AppointmentsController.Delete | BACKEND/controllers/appointments_api_controller.js:258-290 | the handler's answer and new list are DeleteSpec's |
| PatientModel.StatusAcceptedStrings | BACKEND/models/patients.js:30-34 | a string status passes exactly when it is Amigable, Peligroso or Inestable; undefined, null, booleans and numbers never pass |
| PatientModel.StatusAcceptsOneWordArray | BACKEND/models/patients.js:30 | the loose `==` also lets through a one-element array holding a valid word, but not a longer one |
| PatientModel.PatientObject | BACKEND/models/patients.js:42-51 | the stored object holds only name, room_number, status, meds and next_checkup beside the id, never the doctor |
| PatientModel.Patient.constructor | BACKEND/models/patients.js:25-41 | once its checks pass, the patient takes the next id and the given fields, and its status is valid |
| PatientModel.Patient.New | BACKEND/models/patients.js:25-41 | throws "Status No Valido" for a status that is not one of the words, then "Meds debe ser un arreglo" for meds that are not an array; otherwise builds the patient with meds defaulting to [] |
| PatientModel.Patient.ToObj | BACKEND/models/patients.js:42-51 | `toObj` is the patient's object without the doctor, and a valid patient's stored status is accepted |
| PatientModel.Patient.SetName | BACKEND/models/patients.js:59-61 | only the name changes, to the given value |
| PatientModel.Patient.SetRoomNumber | BACKEND/models/patients.js:65-67 | only the room changes, to the given value |
| PatientModel.Patient.SetStatus | BACKEND/models/patients.js:71-77 | takes a valid word; otherwise throws and leaves the status unchanged; a valid patient stays valid |
| PatientModel.Patient.SetMeds | BACKEND/models/patients.js:81-92 | a non-array throws; a non-empty array throws a ReferenceError on the undeclared loop variable; only [] is stored |
| PatientModel.Patient.SetDoctor | BACKEND/models/patients.js:96-102 | always throws a ReferenceError on the undeclared `doctorsD` |
| PatientModel.Patient.SetNextCheckup | BACKEND/models/patients.js:106-112 | takes only a Date; otherwise throws and the field is unchanged |
| PatientsApi.ValidStatusAccepted | BACKEND/controllers/patients_api_controller.js:47-48 | every status the handler lets through, the class accepts too |
| PatientsApi.BodyCheck | BACKEND/controllers/patients_api_controller.js:171-186 | PUT and PATCH refuse a truthy status outside the words, then meds that are given and not an array; an empty status passes |
| PatientsApi.RegisterSpec | BACKEND/controllers/patients_api_controller.js:35-86 | 400 for a missing field, then a status outside the words, then non-array meds; 500 exactly when those checks pass and the write fails; otherwise appends the patient's object with the next id, meds defaulting to [] and no doctor; the list is unchanged on errors |
| PatientsApi.RoomTest | BACKEND/controllers/patients_api_controller.js:341-344 | the room filter throws on an undefined or null room, and otherwise accepts exactly the rooms whose text is the query |
| PatientsApi.FilterToDoctor | BACKEND/controllers/patients_api_controller.js:319-355 | the name then status filters: they fail exactly when the name filter throws, and otherwise keep exactly the patients that pass both, in order |
| PatientsApi.FilterToRoom | BACKEND/controllers/patients_api_controller.js:319-355 | the name, status and doctor filters in turn: they fail exactly when the name filter or the doctor filter throws on a patient that reaches it, and otherwise keep exactly the patients that pass them, in order |
| PatientsApi.Search | BACKEND/controllers/patients_api_controller.js:319-355 | an order-preserving subsequence holding exactly the stored patients that match every given criterion; 500 exactly when the name filter meets a name that is not a string, or the doctor filter meets such a doctor among the patients the name and status filters kept, or the room filter meets an undefined or null room among those the doctor filter also kept; a doctor-only search fails on any stored patient without a doctor |
| PatientsApi.DoctorSearchFailsAfterRegister | BACKEND/controllers/patients_api_controller.js:335-339 | since register stores no doctor, a search by doctor alone answers 500 after any successful register |
| PatientsApi.PatientsController.constructor | BACKEND/controllers/patients_api_controller.js:13-21 | the controller starts from the list read from the file |
| PatientsApi.PatientsController.Register | BACKEND/controllers/patients_api_controller.js:35-86 | the handler, building a `Patient` and storing its `toObj()`, gives RegisterSpec's answer and list |
| PatientsApi.PatientsController.Update | BACKEND/controllers/patients_api_controller.js:150-215 | the handler's answer and new list are UpdateSpec's over the six fields with the body check |
| PatientsApi.PatientsController.Patch | BACKEND/controllers/patients_api_controller.js:253-316 | the handler's answer and new list are PatchSpec's with the body check |
| PatientsApi.PatientsController.Delete | BACKEND/controllers/patients_api_controller.js:218-250 | the handler's answer and new list are DeleteSpec's |
| DoctorModel.DoctorObject | BACKEND/models/doctors.js:40-49 | the stored object holds name, email, the plain password, patients and appointments beside the id |
| DoctorModel.Doctor.constructor | BACKEND/models/doctors.js:24-39 | once both lists are arrays, the doctor takes the next id and the given fields |
| DoctorModel.Doctor.New | BACKEND/models/doctors.js:24-39 | throws for patients, then for appointments, that are given and not arrays; both default to [] |
| DoctorModel.Doctor.ToObj | BACKEND/models/doctors.js:40-49 | `toObj` is the doctor's object with all six fields |
| DoctorModel.Doctor.SetName | BACKEND/models/doctors.js:56-58 | unconditional; only the name changes |
| DoctorModel.Doctor.SetEmail | BACKEND/models/doctors.js:62-64 | unconditional, with no format check; only the email changes |
| DoctorModel.Doctor.SetPassword | BACKEND/models/doctors.js:68-70 | unconditional; only the password changes |
| DoctorModel.Doctor.SetPatients | BACKEND/models/doctors.js:74-80 | takes an array; otherwise throws and the list is unchanged |
| DoctorModel.Doctor.SetAppointments | BACKEND/models/doctors.js:84-90 | takes an array; otherwise throws and the list is unchanged |
| DoctorsApi.FirstAt | BACKEND/controllers/doctors_api_controller.js:72 | the first '@' of a text, or -1 when there is none |
| DoctorsApi.EmailFormatIsRegex | BACKEND/controllers/doctors_api_controller.js:72-77 | the email check accepts exactly the texts of the form local@domain.suffix with three non-empty parts free of whitespace and '@' |
| DoctorsApi.EmailFormatMatches | BACKEND/controllers/doctors_api_controller.js:72-77 | text the check accepts splits into non-empty local part, domain and suffix of `[^\s@]` around '@' and '.' |
| DoctorsApi.EmailPartsPass | BACKEND/controllers/doctors_api_controller.js:72-77 | text built from such parts passes the check |
| DoctorsApi.MissingField | BACKEND/controllers/doctors_api_controller.js:40-62 | none exactly when name, email, password and confirm_password are all truthy; otherwise the message names a falsy one |
| DoctorsApi.RegisterSpec | BACKEND/controllers/doctors_api_controller.js:35-124 | in order: 400 for the first missing field, mismatched passwords, an email not matching the pattern, an email already stored, non-array patients, then non-array appointments; then 500 exactly when all checks pass and the write fails; otherwise appends the doctor's object with the next id; keeps emails unique and the list's invariant |
| DoctorsApi.AppendFreshEmail | BACKEND/controllers/doctors_api_controller.js:80-86 | appending a doctor whose email no stored doctor has keeps emails unique |
| DoctorsApi.BodyCheck | BACKEND/controllers/doctors_api_controller.js:209-221 | PUT and PATCH refuse patients, then appointments, given and not arrays |
| DoctorsApi.UpdateDropsCredentials | BACKEND/controllers/doctors_api_controller.js:224-229 | a successful PUT leaves the doctor without email and password |
| DoctorsApi.PatchCanDuplicateEmail | BACKEND/controllers/doctors_api_controller.js:322-327 | PATCH checks no email, so two stored doctors can end up with the same one |
| DoctorsApi.Search | BACKEND/controllers/doctors_api_controller.js:348-368 | the whole list without a name; otherwise exactly the doctors whose name contains it, in order, or 500 exactly when some stored name is not a string |
| DoctorsApi.DoctorsController.constructor | BACKEND/controllers/doctors_api_controller.js:13-21 | the controller starts from the list read from the file |
| DoctorsApi.DoctorsController.Register | BACKEND/controllers/doctors_api_controller.js:35-124 | the handler, building a `Doctor` and storing its `toObj()`, gives RegisterSpec's answer and list |
| DoctorsApi.DoctorsController.Update | BACKEND/controllers/doctors_api_controller.js:188-247 | the handler's answer and new list are UpdateSpec's over name, patients and appointments |
| DoctorsApi.DoctorsController.Patch | BACKEND/controllers/doctors_api_controller.js:285-345 | the handler's answer and new list are PatchSpec's with the array checks |
| DoctorsApi.DoctorsController.Delete | BACKEND/controllers/doctors_api_controller.js:250-282 | the handler's answer and new list are DeleteSpec's |
| MedModel.MedObject | BACKEND/models/meds.js:30-38 | the stored object holds only name, dosage, frequency and inventory beside the id |
| MedModel.Med.constructor | BACKEND/models/meds.js:23-29 | four arguments and the next id; nothing is checked |
| MedModel.Med.ToObj | BACKEND/models/meds.js:30-38 | `toObj` is the medication's object |
| MedModel.Med.SetName | BACKEND/models/meds.js:45-47 | unconditional; only the name changes |
| MedModel.Med.SetDosage | BACKEND/models/meds.js:51-53 | unconditional; only the dosage changes |
| MedModel.Med.SetFrequency | BACKEND/models/meds.js:57-59 | unconditional; only the frequency changes |
| MedModel.Med.SetInventory | BACKEND/models/meds.js:63-65 | stores any value, a negative number included; only the inventory changes |
| MedsApi.RegisterSpec | BACKEND/controllers/meds_api_controller.js:35-86 | 400 for a missing field (inventory 0 counts as given), then an inventory that is not a number at least 0, then a truthy riesgo outside the words; 500 exactly when those checks pass and the write fails; otherwise appends the medication without riesgo or duration |
| MedsApi.BodyCheck | BACKEND/controllers/meds_api_controller.js:172-176 | PUT and PATCH refuse a given inventory that is not a number at least 0 |
| MedsApi.RegisterKeepsInventoriesOk | BACKEND/controllers/meds_api_controller.js:46-62 | register keeps every stored inventory a number at least 0 |
| MedsApi.UpdateKeepsInventoriesOk | BACKEND/controllers/meds_api_controller.js:171-184 | PUT keeps every stored inventory a number at least 0: a given one is checked, a missing one keeps the stored value |
| MedsApi.PatchKeepsInventoriesOk | BACKEND/controllers/meds_api_controller.js:264-276 | PATCH keeps every stored inventory a number at least 0 |
| MedsApi.Search | BACKEND/controllers/meds_api_controller.js:297-323 | exactly the medications whose name and dosage contain the given texts, in order; 500 exactly when the name filter meets a name that is not a string or the dosage filter meets such a dosage among the medications the name filter kept; the whole list when neither is given |
| MedsApi.MedsController.constructor | BACKEND/controllers/meds_api_controller.js:13-21 | the controller starts from the list read from the file |
| MedsApi.MedsController.Register | BACKEND/controllers/meds_api_controller.js:35-86 | the handler, building a `Med` from four fields and storing its `toObj()`, gives RegisterSpec's answer and list |
| MedsApi.MedsController.Update | BACKEND/controllers/meds_api_controller.js:150-203 | the handler's answer and new list are UpdateSpec's over the four fields with the inventory check |
| MedsApi.MedsController.Patch | BACKEND/controllers/meds_api_controller.js:241-294 | the handler's answer and new list are PatchSpec's with the inventory check |
| MedsApi.MedsController.Delete | BACKEND/controllers/meds_api_controller.js:206-238 | the handler's answer and new list are DeleteSpec's |

## Left out

- File reading and writing. The list a handler reads is the state it starts from, and a failed write is the `writeOk` parameter. A failed read is not modelled. The handlers' own read helpers turn it into an empty list, but the `getNext*ID` helper each model constructor calls (BACKEND/models/patients.js:5-8 and the same lines of the other three models) reads and parses the file with no `try`. So a register whose checks pass on an unreadable or corrupt file answers 500 "Error interno del servidor" from the catch block, not 201.
- The Mongoose schemas, the database scripts, the Express routes and `server.js`, and the whole frontend. None of them is part of this model.
- Concurrent requests racing on the same file, and therefore on the same next id.
- Numbers are integers. Fractional numbers and the text `${}` gives a non-integer are not modelled. `parseInt` results are unbounded integers, so there is no precision loss for huge values.
- Dates. `new Date(v).getTime()` is the `timestamp` parameter. A Date passed to `setnext_checkup` is carried as the ISO text JSON would store.
- `toLowerCase` folds ASCII letters only, and whitespace follows the ECMAScript list of code points. There is no other Unicode case mapping.
- Query parameters are single strings. Express can also hand over arrays or objects for repeated or bracketed parameters; those are not modelled.
- Key order inside stored objects, and the `message` text of success answers. The model answers with the record only.
- The getters of the four classes. They are the class fields, or the datatype fields for the appointment.
- The `getAll*` handlers without pagination. They answer the list as read, so their behaviour is the state itself.
- The catch-all 500 "Error interno del servidor". It is reached by a request without a body and by the unreadable file above; neither is modelled. The `error.errorMessage` branch of the catch blocks is unreachable: each handler checks the model's conditions before it calls the constructor.
- AppointmentsApi.RegisterSpec, PatientsApi.RegisterSpec, DoctorsApi.RegisterSpec, MedsApi.RegisterSpec: describe a readable file; the 500 an unreadable one causes is not stated.
- Store.PageOf: the page's data is stated for page and limit at least 1. For a smaller page or a negative limit it is the JavaScript `slice` of the same bounds, which Store.JsSlice and Store.SliceNegativeBounds characterise, but PageOf's contract does not restate it.
- Store.ContainsTest: a filter callback that throws is a `None`. Which exception it is (TypeError) is not modelled, since every one becomes the same 500.
- PatientModel.Patient.SetMeds, PatientModel.Patient.SetDoctor: these model strict-mode ReferenceErrors on undeclared identifiers, not the lookups the code evidently meant to do.
