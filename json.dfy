/** JSON values as request bodies and the stored files carry them, and the
    JavaScript operations the handlers apply to them: truthiness,
    `Array.isArray`, strict and loose equality, and conversion to text. */
module Json {
  import opened Common
  import opened JsText

  /** A JSON value. Numbers are integers; `undefined` is not a value but an
      absent key (`Get` returns None). */
  datatype Value =
    | Null
    | Bool(b: bool)
    | Num(n: int)
    | Str(s: string)
    | Arr(items: seq<Value>)
    | Obj(members: map<string, Value>)

  /** A JSON object. */
  type Object = map<string, Value>

  /** `o.k`: None when the key is absent (undefined). */
  function Get(o: Object, k: string): Option<Value> {
    if k in o then Some(o[k]) else None
  }

  /** The object after `o.k = v` as JSON.stringify writes it: an undefined
      value leaves no key. */
  function With(o: Object, k: string, v: Option<Value>): (r: Object)
    ensures r.Keys == if v.Some? then o.Keys + {k} else o.Keys
    ensures Get(r, k) == if v.Some? then v else Get(o, k)
    ensures forall j | j != k :: Get(r, j) == Get(o, j)
  {
    if v.Some? then o[k := v.value] else o
  }

  /** Whether `if (v)` takes its branch: undefined, null, false, 0 and ""
      are the falsy values. */
  predicate Truthy(v: Option<Value>) {
    match v
    case None => false
    case Some(Null) => false
    case Some(Bool(b)) => b
    case Some(Num(n)) => n != 0
    case Some(Str(s)) => s != ""
    case Some(_) => true
  }

  predicate IsArray(v: Option<Value>) {
    v.Some? && v.value.Arr?
  }

  /** A list parameter with the default `= []`: undefined or an array. */
  predicate ArrayOrAbsent(v: Option<Value>) {
    v.None? || v.value.Arr?
  }

  /** The elements of such a parameter, the default giving none. */
  function ItemsOrEmpty(v: Option<Value>): seq<Value> {
    if v.Some? && v.value.Arr? then v.value.items else []
  }

  /** `a === b`: undefined equals undefined, primitives compare by value, and
      two arrays or objects read from JSON are distinct objects. */
  predicate StrictEquals(a: Option<Value>, b: Option<Value>) {
    match (a, b)
    case (None, None) => true
    case (Some(x), Some(y)) => (x.Null? || x.Bool? || x.Num? || x.Str?) && x == y
    case _ => false
  }

  function Join(parts: seq<string>, sep: string): string {
    if |parts| == 0 then ""
    else if |parts| == 1 then parts[0]
    else parts[0] + sep + Join(parts[1..], sep)
  }

  /** `String(v)`, which also gives the text of a template literal and of the
      argument of `RegExp.prototype.test`; an array joins its elements with
      commas, null elements becoming empty. */
  function ToJsString(v: Value): string
    decreases v
  {
    match v
    case Null => "null"
    case Bool(b) => if b then "true" else "false"
    case Num(n) => DecimalString(n)
    case Str(s) => s
    case Arr(items) =>
      Join(seq(|items|, i requires 0 <= i < |items| =>
                 if items[i].Null? then "" else ToJsString(items[i])), ",")
    case Obj(_) => "[object Object]"
  }

  /** A non-empty text of ASCII letters, which `Number()` never reads as
      an integer. */
  predicate IsWord(w: string) {
    |w| > 0 && forall i | 0 <= i < |w| :: 'a' <= w[i] <= 'z' || 'A' <= w[i] <= 'Z'
  }

  /** `v == w` (loose equality) for a word w that is not numeric text:
      null, booleans and numbers never equal it, while an array or object
      equals it when its text is w. */
  predicate LooseEqualsWord(v: Option<Value>, w: string)
    requires IsWord(w)
  {
    match v
    case Some(Str(s)) => s == w
    case Some(Arr(_)) => ToJsString(v.value) == w
    case Some(Obj(_)) => ToJsString(v.value) == w
    case _ => false
  }
}
