/** Values shared by the whole model: optional values, JavaScript exceptions,
    parsed JSON replies with JavaScript truthiness, and the configuration object. */
module Common {

  datatype Option<+T> = None | Some(value: T)

  /** A computation that either yields a value or throws an uncaught JavaScript
      exception (a TypeError or ReferenceError inside a callback ends the process). */
  datatype Result<+T> = Ok(value: T) | Thrown(error: string)

  /** A parsed JSON value. Numbers are integers only: every number the core
      computes with (counts, ids, offsets) is an integer. */
  datatype Json =
    | JNull
    | JBool(b: bool)
    | JNum(n: int)
    | JStr(s: string)
    | JArr(items: seq<Json>)
    | JObj(fields: map<string, Json>)

  /** JavaScript truthiness of a parsed value: arrays and objects, even empty
      ones, are truthy. */
  predicate Truthy(v: Json)
  {
    match v
    case JNull => false
    case JBool(b) => b
    case JNum(n) => n != 0
    case JStr(s) => s != ""
    case JArr(_) => true
    case JObj(_) => true
  }

  /** A possibly-undefined value is truthy when it is defined and truthy. */
  predicate Present(v: Option<Json>)
  {
    v.Some? && Truthy(v.value)
  }

  /** `v[key]` for the keys the core reads (`layers`, `services`, `features`,
      `count`, ...): a member of an object, undefined otherwise. */
  function Member(v: Json, key: string): (r: Option<Json>)
    ensures r.Some? <==> v.JObj? && key in v.fields
    ensures r.Some? ==> r.value == v.fields[key]
  {
    if v.JObj? && key in v.fields then Some(v.fields[key]) else None
  }

  /** The configuration object, passed explicitly. An allow-list that is not set
      in the configuration is `None`. */
  datatype Config = Config(
    hostname: string,
    outputdir: string,
    outSr: string,
    useRootServices: bool,
    useFolderList: bool,
    folderList: Option<seq<string>>,
    useServicesList: bool,
    servicesList: Option<seq<string>>,
    useLayerList: bool,
    layersList: Option<seq<int>>,
    useObjectIDs: bool,
    offsetStart: int,
    testOnly: bool)
}
