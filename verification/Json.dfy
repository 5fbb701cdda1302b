/** JSON values as the decoders see them. */
module Json {
  import opened Sequences

  /** A number token has an exact value, and is `plain` when written as an integer. */
  datatype Value =
    | Null
    | Bool(b: bool)
    | Num(n: real, plain: bool)
    | Str(s: string)
    | Arr(items: seq<Value>)
    | Obj(fields: map<string, Value>)

  function Member(fields: map<string, Value>, key: string): Option<Value> {
    if key in fields then Some(fields[key]) else None
  }

  function Field(v: Value, key: string): Option<Value> {
    if v.Obj? then Member(v.fields, key) else None
  }

  function Text(v: Option<Value>): Option<string> {
    if v.Some? && v.value.Str? then Some(v.value.s) else None
  }
}
