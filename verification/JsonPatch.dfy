// JSON Patch over objects (RFC 6902). A path is the list of decoded reference
// tokens, so the escape `~1` stands for `/` inside one token.
module JsonPatch {
  import opened Common

  type Path = seq<string>

  datatype Operation =
    | Test(path: Path, value: Json)
    | Add(path: Path, value: Json)
    | Remove(path: Path)

  // Set or remove the member a path names; its parent must exist.
  function Put(document: Json, path: Path, value: Option<Json>): Option<Json>
    decreases |path|
  {
    if path == [] then value
    else if !document.Obj? then None
    else if |path| == 1 then
      if value.Some? then Some(Obj(document.fields[path[0] := value.value]))
      else if path[0] in document.fields then Some(Obj(document.fields - {path[0]}))
      else None
    else if path[0] !in document.fields then None
    else
      var child := Put(document.fields[path[0]], path[1..], value);
      if child.None? then None else Some(Obj(document.fields[path[0] := child.value]))
  }

  function ApplyOne(document: Json, operation: Operation): Option<Json> {
    match operation
    case Test(path, value) => if At(document, path) == Some(value) then Some(document) else None
    case Add(path, value) => Put(document, path, Some(value))
    case Remove(path) => Put(document, path, None)
  }

  // All operations in order, or nothing (RFC 6902, section 5).
  function Apply(document: Json, operations: seq<Operation>): Option<Json>
    decreases |operations|
  {
    if operations == [] then Some(document)
    else
      var next := ApplyOne(document, operations[0]);
      if next.None? then None else Apply(next.value, operations[1..])
  }
}
