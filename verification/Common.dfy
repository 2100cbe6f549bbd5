// Vocabulary shared by the models: optional values, JSON trees and fingerprints.
module Common {
  datatype Option<+T> = None | Some(value: T)

  // A JSON document. Python's bool/int/float distinction is kept: JSON text
  // distinguishes true, 1 and 1.0 even though Python's == does not.
  datatype Json =
    | Null
    | Bool(flag: bool)
    | Int(number: int)
    | Real(amount: real)
    | Str(text: string)
    | Arr(items: seq<Json>)
    | Obj(fields: map<string, Json>)

  // SHA-256 of the canonical JSON text, taken to be injective on its argument.
  datatype Digest<+T> = Digest(content: T)

  // The value at a path of object keys, when every step exists.
  function At(document: Json, path: seq<string>): Option<Json>
    decreases |path|
  {
    if path == [] then Some(document)
    else if document.Obj? && path[0] in document.fields then At(document.fields[path[0]], path[1..])
    else None
  }

  // Python's truth value of a JSON document.
  predicate Truthy(v: Json) {
    match v
    case Null => false
    case Bool(b) => b
    case Int(n) => n != 0
    case Real(r) => r != 0.0
    case Str(s) => s != ""
    case Arr(items) => items != []
    case Obj(fields) => fields != map[]
  }

  /****** Equality as the language has it ******/

  // Python's == on JSON values: booleans, integers and floats compare as numbers.
  function Numeric(value: Json): Option<real> {
    match value
    case Bool(b) => Some(if b then 1.0 else 0.0)
    case Int(n) => Some(n as real)
    case Real(r) => Some(r)
    case _ => None
  }

  predicate PyEqual(a: Json, b: Json)
    decreases a
  {
    if Numeric(a).Some? && Numeric(b).Some? then Numeric(a) == Numeric(b)
    else if a.Arr? && b.Arr? then
      |a.items| == |b.items| && forall i | 0 <= i < |a.items| :: PyEqual(a.items[i], b.items[i])
    else if a.Obj? && b.Obj? then
      a.fields.Keys == b.fields.Keys && forall k | k in a.fields && k in b.fields :: PyEqual(a.fields[k], b.fields[k])
    else a == b
  }

  lemma {:induction false} PyEqualSelf(a: Json)
    ensures PyEqual(a, a)
    decreases a
  {
    if a.Arr? {
      forall i | 0 <= i < |a.items|
        ensures PyEqual(a.items[i], a.items[i])
      {
        PyEqualSelf(a.items[i]);
      }
    } else if a.Obj? {
      forall k | k in a.fields
        ensures PyEqual(a.fields[k], a.fields[k])
      {
        PyEqualSelf(a.fields[k]);
      }
    }
  }
}
