/** The values `JSON.parse` produces, and JavaScript's property read on them. `JSON.parse`
    itself is not modelled: callers receive it as a function parameter. */
module Json {

  /** A parsed JSON value. Numbers are integers here; an object maps each key to the value
      of its last occurrence, as `JSON.parse` keeps it. */
  datatype Json =
    | JNull
    | JBool(b: bool)
    | JNum(n: int)
    | JStr(s: string)
    | JArr(items: seq<Json>)
    | JObj(fields: map<string, Json>)

  /** The outcome of reading `v.key`. */
  datatype Read = Throws | Undefined | Found(value: Json)

  /** The keys the task payload and the transcription reply are read through. No built-in
      prototype of a JSON value defines them, so a value that lacks one of them as an own key
      reads `undefined`. */
  predicate PayloadKey(key: string) {
    key in {"tasks", "title", "category", "estimatedTime", "subtasks", "completed", "text"}
  }

  /** `v.key` for a payload key: reading a property of `null` throws a TypeError; on a value
      that is not an object (a string, number, boolean or array) it reads `undefined`. */
  function Member(v: Json, key: string): (r: Read)
    requires PayloadKey(key)
    ensures r == Throws <==> v == JNull
    ensures r.Found? <==> v.JObj? && key in v.fields
    ensures r.Found? ==> r.value == v.fields[key]
  {
    match v
    case JNull => Throws
    case JObj(fields) => if key in fields then Found(fields[key]) else Undefined
    case _ => Undefined
  }

  /** `Array.isArray(x)` for a property read that did not throw. */
  predicate IsArray(r: Read) {
    r.Found? && r.value.JArr?
  }
}
