/** JSON values, with object keys split into the names the agent looks up and all others. */
module Json {
  import opened Types

  datatype Key =
    | Method | Id | Params | ThreadId | CollaborationMode | Settings | Model | Effort | ReasoningEffort
    | ServiceTier | Cwd | Input | Type | Text | Result | Error | ResumedEffort | Unknown(name: string)

  datatype Value =
    | Null
    | Bool(bit: bool)
    | Number(number: int)
    | Str(text: string)
    | List(items: seq<Value>)
    | Object(fields: map<Key, Value>)

  /** Member lookup; anything but an object has no members. */
  function Get(v: Value, k: Key): Option<Value> {
    if v.Object? && k in v.fields then Some(v.fields[k]) else None
  }

  function GetIn(v: Option<Value>, k: Key): Option<Value> {
    if v.Some? then Get(v.value, k) else None
  }

  function AsText(v: Option<Value>): Option<string> {
    if v.Some? && v.value.Str? then Some(v.value.text) else None
  }

  function TextAt(v: Value, k: Key): Option<string> { AsText(Get(v, k)) }

  function ParamsOf(message: Value): Value {
    var params := Get(message, Params);
    if params.Some? then params.value else Null
  }
}
