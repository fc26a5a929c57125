/**
 * The values a store holds, the JavaScript truthiness the store's accessors
 * rely on, and the JSON codec, kept opaque.
 */
module Json {
  import opened Results

  /** A JSON-representable value. Numbers are integers here (see README). */
  datatype Value =
    | Null
    | Bool(b: bool)
    | Num(n: int)
    | Str(s: string)
    | Arr(items: seq<Value>)
    | Obj(fields: map<string, Value>)

  /** The store's whole data set: a string-keyed mapping. */
  type Data = map<string, Value>

  /** JavaScript truthiness: `null`, `false`, `0` and `""` are falsy; arrays and objects are truthy even when empty. */
  predicate Truthy(v: Value)
    ensures !Truthy(v) <==> v == Null || v == Bool(false) || v == Num(0) || v == Str("")
  {
    match v
    case Null => false
    case Bool(b) => b
    case Num(n) => n != 0
    case Str(s) => s != ""
    case Arr(_) => true
    case Obj(_) => true
  }

  /**
   * `JSON.stringify` and `JSON.parse`, kept uninterpreted: any pair of total
   * functions. `decode` yields `None` where parsing throws or the text is not
   * a JSON object.
   */
  datatype Codec = Codec(encode: Data -> string, decode: string -> Option<Data>)

  /**
   * A codec whose every encoding is a non-empty text that parses back to the
   * same data. The real JSON codec does this for data whose numbers a double
   * holds exactly; the model's unbounded integers make it an assumption.
   */
  ghost predicate RoundTrips(codec: Codec) {
    forall d: Data :: codec.encode(d) != "" && codec.decode(codec.encode(d)) == Some(d)
  }
}
