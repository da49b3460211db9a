/** The medication entity: a class whose id is fixed at construction and
    whose four other fields change through setters that check nothing. */
module MedModel {
  import opened Common
  import opened Json
  import opened Store

  /** The object `toObj()` returns: id, name, dosage, frequency and
      inventory, and nothing else; an undefined field leaves no key. */
  function MedObject(id: int, name: Option<Value>, dosage: Option<Value>, frequency: Option<Value>,
                     inventory: Option<Value>): (r: Record)
    ensures r.id == id && "id" !in r.fields
    ensures r.fields.Keys <= {"name", "dosage", "frequency", "inventory"}
    ensures Get(r.fields, "name") == name && Get(r.fields, "dosage") == dosage
    ensures Get(r.fields, "frequency") == frequency && Get(r.fields, "inventory") == inventory
  {
    Record(id, With(With(With(With(map[], "name", name), "dosage", dosage), "frequency", frequency),
                    "inventory", inventory))
  }

  class Med {
    const id: int
    var name: Option<Value>
    var dosage: Option<Value>
    var frequency: Option<Value>
    var inventory: Option<Value>

    /** `new Med(name, dosage, frequency, inventory)`: four parameters, so any
        further argument is dropped; nothing is checked, and the id follows
        the last stored medication. */
    constructor (stored: seq<Record>, name: Option<Value>, dosage: Option<Value>,
                 frequency: Option<Value>, inventory: Option<Value>)
      ensures id == NextId(stored)
      ensures this.name == name && this.dosage == dosage
      ensures this.frequency == frequency && this.inventory == inventory
    {
      this.id := NextId(stored);
      this.name := name;
      this.dosage := dosage;
      this.frequency := frequency;
      this.inventory := inventory;
    }

    /** `toObj()`: the stored object of this medication. */
    function ToObj(): (r: Record)
      reads this
      ensures r.id == id
      ensures r == MedObject(id, name, dosage, frequency, inventory)
    {
      MedObject(id, name, dosage, frequency, inventory)
    }

    /** `setname`: unconditional, and only the name changes. */
    method SetName(v: Option<Value>)
      modifies this`name
      ensures name == v
    {
      name := v;
    }

    /** `setdosage`: unconditional, and only the dosage changes. */
    method SetDosage(v: Option<Value>)
      modifies this`dosage
      ensures dosage == v
    {
      dosage := v;
    }

    /** `setfrequency`: unconditional, and only the frequency changes. */
    method SetFrequency(v: Option<Value>)
      modifies this`frequency
      ensures frequency == v
    {
      frequency := v;
    }

    /** `setinventory`: stores any value, a negative number or a text
        included, and only the inventory changes. */
    method SetInventory(v: Option<Value>)
      modifies this`inventory
      ensures inventory == v
    {
      inventory := v;
    }
  }
}
