/** The shape of a parsed request body: a key that may be absent, and the
    scalar JSON values a field can hold. */
module Json {
  import opened Strings

  /** A body key: None when the key is absent from the JSON object. */
  datatype Option<+T> = None | Some(value: T) {
    /** Python's dict.get(key, default). */
    function GetOr(default: T): T {
      match this
      case Some(v) => v
      case None => default
    }
  }

  /** A scalar JSON value after json.loads: null, true/false, an integer or a
      string. */
  datatype Value = Null | Bool(b: bool) | Int(i: int) | Str(s: string)

  /** Python's str() of a decoded JSON scalar. */
  function PyStr(v: Value): (r: string)
    ensures v.Str? ==> r == v.s
    ensures !v.Str? ==> r != ""
  {
    match v
    case Null => "None"
    case Bool(b) => if b then "True" else "False"
    case Int(i) => IntToString(i)
    case Str(s) => s
  }
}
