/** The medications handlers: register with its required fields, inventory
    and riesgo checks; PUT, PATCH and DELETE on the medications list; and
    the search by name and dosage. */
module MedsApi {
  import opened Common
  import opened Json
  import opened JsText
  import opened Store
  import opened MedModel

  const Messages := Texts("ID de medicamento inválido", "Medicamento con ID ", " no encontrado",
                          "No se puede modificar el ID del medicamento", "Error al actualizar el medicamento",
                          "Error al eliminar el medicamento")
  const MissingFields := "Faltan campos obligatorios: name, dosage, frequency, inventory"
  const InventoryInvalid := "El campo 'inventory' debe ser un número mayor o igual a 0"
  const RiesgoInvalid := "El campo 'riesgo' debe ser: Sano, Precaucion o Peligroso"
  const SaveFailed := "Error al guardar el medicamento"
  const SearchFailed := "Error al buscar medicamentos"
  const ValidRiesgo: seq<string> := ["Sano", "Precaucion", "Peligroso"]

  /** The fields PUT rebuilds. */
  const PutKeys: set<string> := {"name", "dosage", "frequency", "inventory"}

  /** `typeof v === 'number' && v >= 0`. */
  predicate InventoryOk(v: Value) {
    v.Num? && v.n >= 0
  }

  /** `validRiesgo.includes(v)`: only a string equal to one of the words. */
  predicate RiesgoListed(v: Option<Value>) {
    v.Some? && v.value.Str? && v.value.s in ValidRiesgo
  }

  /** name, dosage and frequency are truthy and inventory is defined (0
      counts as given). */
  predicate RequiredGiven(body: Object) {
    Truthy(Get(body, "name")) && Truthy(Get(body, "dosage")) && Truthy(Get(body, "frequency")) && "inventory" in body
  }

  /** `POST /`: 400 for a missing field, then 400 for an inventory that is
      not a number at least 0, then 400 for a truthy riesgo that is not one
      of the words, then 500 when the write fails; otherwise the new
      medication's `toObj()` is appended with the next id. riesgo and
      duration are checked or read but never stored. */
  function RegisterSpec(s: seq<Record>, body: Object, writeOk: bool): (o: Outcome)
    ensures !RequiredGiven(body) ==> o == Outcome(BadRequest(MissingFields), s)
    ensures RequiredGiven(body) && !InventoryOk(body["inventory"]) ==> o == Outcome(BadRequest(InventoryInvalid), s)
    ensures RequiredGiven(body) && InventoryOk(body["inventory"]) ==>
              Truthy(Get(body, "riesgo")) && !RiesgoListed(Get(body, "riesgo")) ==>
                o == Outcome(BadRequest(RiesgoInvalid), s)
    ensures o.reply.Created? <==>
              && RequiredGiven(body) && InventoryOk(body["inventory"])
              && (!Truthy(Get(body, "riesgo")) || RiesgoListed(Get(body, "riesgo"))) && writeOk
    ensures o.reply.Created? ==>
              && o.store == s + [o.reply.value]
              && o.reply.value == MedObject(NextId(s), Get(body, "name"), Get(body, "dosage"),
                                            Get(body, "frequency"), Get(body, "inventory"))
              && o.reply.value.fields["inventory"].n >= 0
              && "riesgo" !in o.reply.value.fields && "duration" !in o.reply.value.fields
    ensures !o.reply.Created? ==> o.store == s
    ensures o.reply.ServerError? ==> o.reply == ServerError(SaveFailed)
    ensures && RequiredGiven(body) && InventoryOk(body["inventory"])
            && (!Truthy(Get(body, "riesgo")) || RiesgoListed(Get(body, "riesgo"))) && !writeOk ==>
              o == Outcome(ServerError(SaveFailed), s)
    ensures Valid(s) ==> Valid(o.store)
  {
    if !RequiredGiven(body) then Outcome(BadRequest(MissingFields), s)
    else if !InventoryOk(body["inventory"]) then Outcome(BadRequest(InventoryInvalid), s)
    else if Truthy(Get(body, "riesgo")) && !RiesgoListed(Get(body, "riesgo")) then Outcome(BadRequest(RiesgoInvalid), s)
    else if !writeOk then Outcome(ServerError(SaveFailed), s)
    else
      var r := MedObject(NextId(s), Get(body, "name"), Get(body, "dosage"), Get(body, "frequency"),
                         Get(body, "inventory"));
      AppendKeepsValid(s, r);
      Outcome(Created(r), s + [r])
  }

  /** The check PUT and PATCH run on a body: a given inventory must be a
      number at least 0. riesgo is not checked here. */
  function BodyCheck(body: Object): (f: Option<Refusal>)
    ensures f.None? <==> "inventory" !in body || InventoryOk(body["inventory"])
    ensures f.Some? ==> f == Some(BadInput(InventoryInvalid))
  {
    if "inventory" in body && !InventoryOk(body["inventory"]) then Some(BadInput(InventoryInvalid)) else None
  }

  /** A stored medication's inventory, when it has one, is a number at
      least 0. */
  predicate InventoriesOk(s: seq<Record>) {
    forall i | 0 <= i < |s| :: "inventory" in s[i].fields ==> InventoryOk(s[i].fields["inventory"])
  }

  /** Register keeps the inventories valid: it checks the inventory before
      storing it. */
  lemma {:induction false} RegisterKeepsInventoriesOk(s: seq<Record>, body: Object, writeOk: bool)
    requires InventoriesOk(s)
    ensures InventoriesOk(RegisterSpec(s, body, writeOk).store)
  {
    var reg := RegisterSpec(s, body, writeOk);
    if reg.reply.Created? {
      assert reg.store[|s|] == reg.reply.value;
    }
  }

  /** PUT keeps the inventories valid: a given inventory is checked first,
      and a missing one leaves the stored value. */
  lemma {:induction false} UpdateKeepsInventoriesOk(s: seq<Record>, idParam: string, body: Object, writeOk: bool)
    requires InventoriesOk(s)
    ensures InventoriesOk(UpdateSpec(s, idParam, body, PutKeys, BodyCheck(body), Messages, writeOk).store)
  {
    var put := UpdateSpec(s, idParam, body, PutKeys, BodyCheck(body), Messages, writeOk);
    if put.reply.Ok? {
      var i := Position(s, idParam);
      forall j | 0 <= j < |put.store| && "inventory" in put.store[j].fields
        ensures InventoryOk(put.store[j].fields["inventory"])
      {
        if j == i {
          assert Get(put.store[j].fields, "inventory") ==
                 (if "inventory" in body then Some(body["inventory"]) else Get(s[i].fields, "inventory"));
        }
      }
    }
  }

  /** PATCH keeps the inventories valid in the same way. */
  lemma {:induction false} PatchKeepsInventoriesOk(s: seq<Record>, idParam: string, body: Object, writeOk: bool)
    requires InventoriesOk(s)
    ensures InventoriesOk(PatchSpec(s, idParam, body, BodyCheck(body), Messages, writeOk).store)
  {
    var patch := PatchSpec(s, idParam, body, BodyCheck(body), Messages, writeOk);
    if patch.reply.Ok? {
      var i := Position(s, idParam);
      forall j | 0 <= j < |patch.store| && "inventory" in patch.store[j].fields
        ensures InventoryOk(patch.store[j].fields["inventory"])
      {
        if j == i {
          assert Get(patch.store[j].fields, "inventory") ==
                 (if "inventory" in body then Some(body["inventory"]) else Get(s[i].fields, "inventory"));
        }
      }
    }
  }

  /** Medication x passes the name filter, which runs before the dosage
      filter. */
  predicate ReachesDosageFilter(x: Record, q: map<string, string>) {
    Given(q, "name") ==> ContainsTest(x, "name", q["name"]) == Some(true)
  }

  /** Medication x meets every criterion the query gives. */
  predicate Matches(x: Record, q: map<string, string>) {
    && ReachesDosageFilter(x, q)
    && (Given(q, "dosage") ==> ContainsTest(x, "dosage", q["dosage"]) == Some(true))
  }

  /** `GET /search`: the stored medications whose name and dosage contain
      the given texts, ignoring ASCII case, in stored order; 500 exactly
      when the name filter meets a name that is not a string, or the dosage
      filter meets such a dosage among the medications the name filter
      kept. */
  function Search(s: seq<Record>, q: map<string, string>): (r: Reply<seq<Record>>)
    ensures r.Ok? || r == ServerError(SearchFailed)
    ensures r.Ok? ==> IsSubsequence(r.value, s)
    ensures r.Ok? ==> forall x | x in r.value :: Matches(x, q)
    ensures r.Ok? ==> forall x | x in s && Matches(x, q) :: x in r.value
    ensures !Given(q, "name") && !Given(q, "dosage") ==> r == Ok(s)
    ensures r.ServerError? <==>
              || (Given(q, "name") && exists x | x in s :: ContainsTest(x, "name", q["name"]).None?)
              || (Given(q, "dosage") &&
                  exists x | x in s && ReachesDosageFilter(x, q) :: ContainsTest(x, "dosage", q["dosage"]).None?)
    ensures Given(q, "name") && (exists x | x in s :: Get(x.fields, "name").None?) ==> r == ServerError(SearchFailed)
    ensures r.Ok? && Valid(s) ==> Valid(r.value)
  {
    var byName := Stage(Some(s), Given(q, "name"), (x: Record) => ContainsTest(x, "name", Param(q, "name")));
    var byDosage := Stage(byName, Given(q, "dosage"), (x: Record) => ContainsTest(x, "dosage", Param(q, "dosage")));
    if byDosage.None? then ServerError(SearchFailed)
    else
      SubsequenceTransitive(byDosage.value, byName.value, s);
      SubsequenceKeepsValid(byDosage.value, s);
      Ok(byDosage.value)
  }

  /** The medications file, and the handlers that change it. */
  class MedsController {
    var meds: seq<Record>

    constructor (stored: seq<Record>)
      ensures meds == stored
    {
      meds := stored;
    }

    /** `registerMed`: the checks in order, then a `Med` built from the first
        four fields, whose `toObj()` is stored. */
    method Register(body: Object, writeOk: bool) returns (r: Reply<Record>)
      modifies this
      ensures Outcome(r, meds) == RegisterSpec(old(meds), body, writeOk)
    {
      if !Truthy(Get(body, "name")) || !Truthy(Get(body, "dosage")) || !Truthy(Get(body, "frequency"))
         || "inventory" !in body
      {
        return BadRequest(MissingFields);
      }
      var inventory := body["inventory"];
      if !inventory.Num? || inventory.n < 0 {
        return BadRequest(InventoryInvalid);
      }
      var riesgo := Get(body, "riesgo");
      if Truthy(riesgo) && !RiesgoListed(riesgo) {
        return BadRequest(RiesgoInvalid);
      }
      var med := new Med(meds, Get(body, "name"), Get(body, "dosage"), Get(body, "frequency"), Some(inventory));
      var created := med.ToObj();
      if !writeOk {
        return ServerError(SaveFailed);
      }
      meds := meds + [created];
      r := Created(created);
    }

    /** `updateMed`: PUT over name, dosage, frequency and inventory. */
    method Update(idParam: string, body: Object, writeOk: bool) returns (r: Reply<Record>)
      modifies this
      ensures Outcome(r, meds) == UpdateSpec(old(meds), idParam, body, PutKeys, BodyCheck(body), Messages, writeOk)
    {
      r, meds := ApplyUpdate(meds, idParam, body, PutKeys, BodyCheck(body), Messages, writeOk);
    }

    /** `patchMed`. */
    method Patch(idParam: string, updates: Object, writeOk: bool) returns (r: Reply<Record>)
      modifies this
      ensures Outcome(r, meds) == PatchSpec(old(meds), idParam, updates, BodyCheck(updates), Messages, writeOk)
    {
      r, meds := ApplyPatch(meds, idParam, updates, BodyCheck(updates), Messages, writeOk);
    }

    /** `deleteMed`. */
    method Delete(idParam: string, writeOk: bool) returns (r: Reply<Record>)
      modifies this
      ensures Outcome(r, meds) == DeleteSpec(old(meds), idParam, Messages, writeOk)
    {
      r, meds := ApplyDelete(meds, idParam, Messages, writeOk);
    }
  }
}
