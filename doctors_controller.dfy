/** The doctors handlers: register with its required fields, password
    confirmation, email format and email uniqueness checks; PUT, PATCH and
    DELETE on the doctors list; and the search by name. */
module DoctorsApi {
  import opened Common
  import opened Json
  import opened JsText
  import opened Store
  import opened DoctorModel

  const Messages := Texts("ID de doctor inválido", "Doctor con ID ", " no encontrado",
                          "No se puede modificar el ID del doctor", "Error al actualizar el doctor",
                          "Error al eliminar el doctor")
  const MissingPrefix := "Campo obligatorio faltante: "
  const PasswordMismatch := "Las contraseñas no coinciden"
  const EmailInvalid := "Formato de email inválido"
  const EmailTaken := "El email ya está registrado"
  const PatientsNotArray := "El campo 'patients' debe ser un arreglo de IDs de pacientes"
  const AppointmentsNotArray := "El campo 'appointments' debe ser un arreglo de IDs de citas"
  const SaveFailed := "Error al guardar el doctor"
  const SearchFailed := "Error al buscar doctores"

  /** The fields PUT rebuilds: email and password are not among them. */
  const PutKeys: set<string> := {"name", "patients", "appointments"}

  // ---- The email pattern /^[^\s@]+@[^\s@]+\.[^\s@]+$/ ----

  /** A character of the class `[^\s@]`. */
  predicate Plain(c: char) {
    !IsWhitespace(c) && c != '@'
  }

  predicate AllPlain(t: string) {
    forall i | 0 <= i < |t| :: Plain(t[i])
  }

  /** The pattern read literally: s is a local part, '@', a domain, '.' and
      a suffix, the three parts non-empty and made of `[^\s@]`. */
  ghost predicate EmailParts(s: string, local: string, domain: string, suffix: string) {
    && local != [] && domain != [] && suffix != []
    && AllPlain(local) && AllPlain(domain) && AllPlain(suffix)
    && s == local + "@" + domain + "." + suffix
  }

  ghost predicate MatchesEmailRegex(s: string) {
    exists local, domain, suffix :: EmailParts(s, local, domain, suffix)
  }

  /** The index of the first '@' in s, or -1. */
  function FirstAt(s: string): (i: int)
    ensures -1 <= i < |s|
    ensures i >= 0 ==> s[i] == '@' && forall j | 0 <= j < i :: s[j] != '@'
    ensures i == -1 ==> forall j | 0 <= j < |s| :: s[j] != '@'
  {
    if s == [] then -1
    else if s[0] == '@' then 0
    else
      var k := FirstAt(s[1..]);
      if k == -1 then -1 else k + 1
  }

  /** `emailRegex.test(s)` as a check: the first '@' is not at the start,
      every other character is in `[^\s@]`, and some '.' lies strictly
      between the character after the '@' and the last character. */
  predicate EmailFormatOk(s: string) {
    var a := FirstAt(s);
    && 0 < a
    && (forall j | 0 <= j < |s| && j != a :: Plain(s[j]))
    && (exists d | a + 1 < d < |s| - 1 :: s[d] == '.')
  }

  /** The check accepts exactly the texts the pattern matches. */
  lemma {:induction false} EmailFormatIsRegex(s: string)
    ensures EmailFormatOk(s) <==> MatchesEmailRegex(s)
  {
    if EmailFormatOk(s) {
      EmailFormatMatches(s);
    }
    if MatchesEmailRegex(s) {
      var local, domain, suffix :| EmailParts(s, local, domain, suffix);
      EmailPartsPass(s, local, domain, suffix);
    }
  }

  /** Whatever the check accepts splits at its first '@' and at a later '.'
      into the pattern's three parts. */
  lemma {:induction false} EmailFormatMatches(s: string)
    requires EmailFormatOk(s)
    ensures MatchesEmailRegex(s)
  {
    var a := FirstAt(s);
    var d :| a + 1 < d < |s| - 1 && s[d] == '.';
    var local, domain, suffix := s[..a], s[a + 1..d], s[d + 1..];
    assert s == local + "@" + domain + "." + suffix by {
      assert s == s[..a] + [s[a]] + s[a + 1..d] + [s[d]] + s[d + 1..];
    }
    assert AllPlain(local) by {
      forall i | 0 <= i < |local| ensures Plain(local[i]) {
        assert local[i] == s[i];
      }
    }
    assert AllPlain(domain) by {
      forall i | 0 <= i < |domain| ensures Plain(domain[i]) {
        assert domain[i] == s[a + 1 + i];
      }
    }
    assert AllPlain(suffix) by {
      forall i | 0 <= i < |suffix| ensures Plain(suffix[i]) {
        assert suffix[i] == s[d + 1 + i];
      }
    }
    assert EmailParts(s, local, domain, suffix);
  }

  /** Text the pattern matches passes the check: its only '@' is the one
      after the local part, and the '.' after the domain lies in range. */
  lemma {:induction false} EmailPartsPass(s: string, local: string, domain: string, suffix: string)
    requires EmailParts(s, local, domain, suffix)
    ensures EmailFormatOk(s)
  {
    var a, d := |local|, |local| + 1 + |domain|;
    assert s[a] == '@' && s[d] == '.';
    assert forall j | 0 <= j < a :: s[j] == local[j];
    assert forall j | a < j < d :: s[j] == domain[j - a - 1];
    assert forall j | d < j < |s| :: s[j] == suffix[j - d - 1];
    assert FirstAt(s) == a;
    forall j | 0 <= j < |s| && j != a ensures Plain(s[j]) {
      if j < a { assert Plain(local[j]); }
      else if j < d { assert Plain(domain[j - a - 1]); }
      else if j > d { assert Plain(suffix[j - d - 1]); }
    }
  }

  // ---- Emails already stored ----

  /** `doctors.some(doc => doc.email === email)` */
  predicate EmailRegistered(s: seq<Record>, email: Value) {
    exists x | x in s :: StrictEquals(Get(x.fields, "email"), Some(email))
  }

  /** Two stored doctors share an email that is defined. */
  predicate SameEmail(x: Record, y: Record) {
    Get(x.fields, "email").Some? && StrictEquals(Get(x.fields, "email"), Get(y.fields, "email"))
  }

  /** No two stored doctors share an email. */
  predicate EmailsUnique(s: seq<Record>) {
    forall i, j | 0 <= i < j < |s| :: !SameEmail(s[i], s[j])
  }

  /** The missing-field answer for the first of name, email, password and
      confirm_password that is falsy, if any. */
  function MissingField(body: Object): (m: Option<string>)
    ensures m.None? <==> && Truthy(Get(body, "name")) && Truthy(Get(body, "email"))
                         && Truthy(Get(body, "password")) && Truthy(Get(body, "confirm_password"))
    ensures m.Some? ==> exists f | f in ["name", "email", "password", "confirm_password"] ::
                          m.value == MissingPrefix + f && !Truthy(Get(body, f))
  {
    if !Truthy(Get(body, "name")) then Some(MissingPrefix + "name")
    else if !Truthy(Get(body, "email")) then Some(MissingPrefix + "email")
    else if !Truthy(Get(body, "password")) then Some(MissingPrefix + "password")
    else if !Truthy(Get(body, "confirm_password")) then Some(MissingPrefix + "confirm_password")
    else None
  }

  /** Everything register checks before it writes has passed. */
  predicate Admissible(s: seq<Record>, body: Object) {
    && MissingField(body).None?
    && StrictEquals(Get(body, "password"), Get(body, "confirm_password"))
    && EmailFormatOk(ToJsString(body["email"]))
    && !EmailRegistered(s, body["email"])
    && ArrayOrAbsent(Get(body, "patients"))
    && ArrayOrAbsent(Get(body, "appointments"))
  }

  /** `POST /`: in order, 400 for the first missing field, 400 when the
      password and its confirmation are not strictly equal, 400 when the
      email's text does not match the pattern, 400 when a stored doctor has
      that email, 400 for patients or appointments given and not arrays,
      500 when the write fails; otherwise the doctor's `toObj()` is
      appended with the next id, the lists defaulting to []. */
  function RegisterSpec(s: seq<Record>, body: Object, writeOk: bool): (o: Outcome)
    ensures MissingField(body).Some? ==> o == Outcome(BadRequest(MissingField(body).value), s)
    ensures MissingField(body).None? && !StrictEquals(Get(body, "password"), Get(body, "confirm_password")) ==>
              o == Outcome(BadRequest(PasswordMismatch), s)
    ensures MissingField(body).None? && StrictEquals(Get(body, "password"), Get(body, "confirm_password")) ==>
              !MatchesEmailRegex(ToJsString(body["email"])) ==> o == Outcome(BadRequest(EmailInvalid), s)
    ensures MissingField(body).None? && EmailRegistered(s, body["email"]) ==> !o.reply.Created?
    ensures && MissingField(body).None? && StrictEquals(Get(body, "password"), Get(body, "confirm_password"))
            && MatchesEmailRegex(ToJsString(body["email"])) ==>
              EmailRegistered(s, body["email"]) ==> o == Outcome(BadRequest(EmailTaken), s)
    ensures && MissingField(body).None? && StrictEquals(Get(body, "password"), Get(body, "confirm_password"))
            && MatchesEmailRegex(ToJsString(body["email"])) && !EmailRegistered(s, body["email"]) ==>
              !ArrayOrAbsent(Get(body, "patients")) ==> o == Outcome(BadRequest(PatientsNotArray), s)
    ensures && MissingField(body).None? && StrictEquals(Get(body, "password"), Get(body, "confirm_password"))
            && MatchesEmailRegex(ToJsString(body["email"])) && !EmailRegistered(s, body["email"])
            && ArrayOrAbsent(Get(body, "patients")) ==>
              !ArrayOrAbsent(Get(body, "appointments")) ==> o == Outcome(BadRequest(AppointmentsNotArray), s)
    ensures Admissible(s, body) && !writeOk ==> o == Outcome(ServerError(SaveFailed), s)
    ensures o.reply.Created? <==> Admissible(s, body) && writeOk
    ensures o.reply.Created? ==>
              && MatchesEmailRegex(ToJsString(body["email"]))
              && o.store == s + [o.reply.value]
              && o.reply.value == DoctorObject(NextId(s), Get(body, "name"), Get(body, "email"),
                                               Get(body, "password"), ItemsOrEmpty(Get(body, "patients")),
                                               ItemsOrEmpty(Get(body, "appointments")))
    ensures !o.reply.Created? ==> o.store == s
    ensures o.reply.ServerError? ==> o.reply == ServerError(SaveFailed)
    ensures Valid(s) ==> Valid(o.store)
    ensures EmailsUnique(s) ==> EmailsUnique(o.store)
  {
    EmailFormatIsRegex(if "email" in body then ToJsString(body["email"]) else "");
    var missing := MissingField(body);
    if missing.Some? then Outcome(BadRequest(missing.value), s)
    else if !StrictEquals(Get(body, "password"), Get(body, "confirm_password")) then
      Outcome(BadRequest(PasswordMismatch), s)
    else if !EmailFormatOk(ToJsString(body["email"])) then Outcome(BadRequest(EmailInvalid), s)
    else if EmailRegistered(s, body["email"]) then Outcome(BadRequest(EmailTaken), s)
    else if !ArrayOrAbsent(Get(body, "patients")) then Outcome(BadRequest(PatientsNotArray), s)
    else if !ArrayOrAbsent(Get(body, "appointments")) then Outcome(BadRequest(AppointmentsNotArray), s)
    else if !writeOk then Outcome(ServerError(SaveFailed), s)
    else
      var r := DoctorObject(NextId(s), Get(body, "name"), Get(body, "email"), Get(body, "password"),
                            ItemsOrEmpty(Get(body, "patients")), ItemsOrEmpty(Get(body, "appointments")));
      AppendKeepsValid(s, r);
      AppendFreshEmail(s, r);
      Outcome(Created(r), s + [r])
  }

  /** Appending a doctor whose email no stored doctor has keeps the emails
      unique. */
  lemma AppendFreshEmail(s: seq<Record>, r: Record)
    requires Get(r.fields, "email").Some? && !EmailRegistered(s, r.fields["email"])
    ensures EmailsUnique(s) ==> EmailsUnique(s + [r])
  {
    if EmailsUnique(s) {
      var t := s + [r];
      forall i, j | 0 <= i < j < |t| ensures !SameEmail(t[i], t[j]) {
        if j == |s| {
          assert t[i] in s;
        }
      }
    }
  }

  /** The checks PUT and PATCH run on a body: patients, then appointments,
      must be arrays when given. */
  function BodyCheck(body: Object): (f: Option<Refusal>)
    ensures f.None? <==> ArrayOrAbsent(Get(body, "patients")) && ArrayOrAbsent(Get(body, "appointments"))
    ensures !ArrayOrAbsent(Get(body, "patients")) ==> f == Some(BadInput(PatientsNotArray))
    ensures ArrayOrAbsent(Get(body, "patients")) && !ArrayOrAbsent(Get(body, "appointments")) ==>
              f == Some(BadInput(AppointmentsNotArray))
  {
    if !ArrayOrAbsent(Get(body, "patients")) then Some(BadInput(PatientsNotArray))
    else if !ArrayOrAbsent(Get(body, "appointments")) then Some(BadInput(AppointmentsNotArray))
    else None
  }

  /** PUT rebuilds a doctor from name, patients and appointments only, so a
      successful PUT loses the stored email and password. */
  lemma UpdateDropsCredentials(s: seq<Record>, idParam: string, body: Object, writeOk: bool)
    requires UpdateSpec(s, idParam, body, PutKeys, BodyCheck(body), Messages, writeOk).reply.Ok?
    ensures var o := UpdateSpec(s, idParam, body, PutKeys, BodyCheck(body), Messages, writeOk);
            "email" !in o.reply.value.fields && "password" !in o.reply.value.fields
  {
  }

  /** PATCH checks neither the format nor the uniqueness of an email it
      writes: two stored doctors can end up with the same email. */
  lemma PatchCanDuplicateEmail()
    ensures var s := [Record(1, map["email" := Str("a@b.co")]), Record(2, map["email" := Str("c@d.co")])];
            var updates := map["email" := Str("a@b.co")];
            && EmailsUnique(s)
            && PatchSpec(s, "2", updates, BodyCheck(updates), Messages, true).reply.Ok?
            && !EmailsUnique(PatchSpec(s, "2", updates, BodyCheck(updates), Messages, true).store)
  {
    var s := [Record(1, map["email" := Str("a@b.co")]), Record(2, map["email" := Str("c@d.co")])];
    var updates := map["email" := Str("a@b.co")];
    assert "a@b.co" != "c@d.co" by { assert "a@b.co"[0] != "c@d.co"[0]; }
    assert !SameEmail(s[0], s[1]);
    assert EmailsUnique(s);
    ParseIntDecimal(2);
    assert DecimalString(2) == "2";
    assert Position(s, "2") == 1;
    assert BodyCheck(updates) == None;
    var o := PatchSpec(s, "2", updates, BodyCheck(updates), Messages, true);
    assert o.reply.Ok?;
    assert o.store[1] == Merge(s[1], updates);
    assert Get(o.store[1].fields, "email") == Some(Str("a@b.co"));
    assert SameEmail(o.store[0], o.store[1]);
  }

  /** Doctor x's name contains the query's name, ignoring ASCII case. */
  predicate Matches(x: Record, q: map<string, string>) {
    Given(q, "name") ==> ContainsTest(x, "name", q["name"]) == Some(true)
  }

  /** `GET /search`: the stored doctors whose name contains the given name,
      in stored order (all of them when no name is given), or 500 when the
      filter meets a doctor whose name is not a string. */
  function Search(s: seq<Record>, q: map<string, string>): (r: Reply<seq<Record>>)
    ensures r.Ok? || r == ServerError(SearchFailed)
    ensures r.Ok? ==> IsSubsequence(r.value, s)
    ensures r.Ok? ==> forall x | x in r.value :: Matches(x, q)
    ensures r.Ok? ==> forall x | x in s && Matches(x, q) :: x in r.value
    ensures !Given(q, "name") ==> r == Ok(s)
    ensures r.ServerError? <==> Given(q, "name") && exists x | x in s :: Get(x.fields, "name").None? ||
                                                                          !x.fields["name"].Str?
    ensures r.Ok? && Valid(s) ==> Valid(r.value)
  {
    var byName := Stage(Some(s), Given(q, "name"), (x: Record) => ContainsTest(x, "name", Param(q, "name")));
    if byName.None? then ServerError(SearchFailed)
    else
      SubsequenceKeepsValid(byName.value, s);
      assert !Given(q, "name") ==> byName.value == s;
      Ok(byName.value)
  }

  /** The doctors file, and the handlers that change it. */
  class DoctorsController {
    var doctors: seq<Record>

    constructor (stored: seq<Record>)
      ensures doctors == stored
    {
      doctors := stored;
    }

    /** `registerDoctor`: the checks in order, then a `Doctor` whose
        `toObj()` is stored, against its specification. */
    method Register(body: Object, writeOk: bool) returns (r: Reply<Record>)
      modifies this
      ensures Outcome(r, doctors) == RegisterSpec(old(doctors), body, writeOk)
    {
      var missing := MissingField(body);
      if missing.Some? {
        return BadRequest(missing.value);
      }
      var email := body["email"];
      if !StrictEquals(Get(body, "password"), Get(body, "confirm_password")) {
        return BadRequest(PasswordMismatch);
      }
      if !EmailFormatOk(ToJsString(email)) {
        return BadRequest(EmailInvalid);
      }
      if EmailRegistered(doctors, email) {
        return BadRequest(EmailTaken);
      }
      var patients, appointments := Get(body, "patients"), Get(body, "appointments");
      if !ArrayOrAbsent(patients) {
        return BadRequest(PatientsNotArray);
      }
      if !ArrayOrAbsent(appointments) {
        return BadRequest(AppointmentsNotArray);
      }
      var doctor := new Doctor(doctors, Get(body, "name"), Some(email), Get(body, "password"),
                               ItemsOrEmpty(patients), ItemsOrEmpty(appointments));
      var created := doctor.ToObj();
      if !writeOk {
        return ServerError(SaveFailed);
      }
      doctors := doctors + [created];
      r := Created(created);
    }

    /** `updateDoctor`: PUT over name, patients and appointments. */
    method Update(idParam: string, body: Object, writeOk: bool) returns (r: Reply<Record>)
      modifies this
      ensures Outcome(r, doctors) == UpdateSpec(old(doctors), idParam, body, PutKeys, BodyCheck(body), Messages, writeOk)
    {
      r, doctors := ApplyUpdate(doctors, idParam, body, PutKeys, BodyCheck(body), Messages, writeOk);
    }

    /** `patchDoctor`. */
    method Patch(idParam: string, updates: Object, writeOk: bool) returns (r: Reply<Record>)
      modifies this
      ensures Outcome(r, doctors) == PatchSpec(old(doctors), idParam, updates, BodyCheck(updates), Messages, writeOk)
    {
      r, doctors := ApplyPatch(doctors, idParam, updates, BodyCheck(updates), Messages, writeOk);
    }

    /** `deleteDoctor`. */
    method Delete(idParam: string, writeOk: bool) returns (r: Reply<Record>)
      modifies this
      ensures Outcome(r, doctors) == DeleteSpec(old(doctors), idParam, Messages, writeOk)
    {
      r, doctors := ApplyDelete(doctors, idParam, Messages, writeOk);
    }
  }
}
