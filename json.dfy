/**
 * Decoded JSON values and the dictionary accessors (`d.get(key, default)`)
 * the scripts apply to them. Decoding itself is not modelled: callers pass
 * a `parse` function whose `None` stands for `json.JSONDecodeError`.
 * Numbers are integers.
 */
module Json {
  import opened Wrappers
  import opened Text

  datatype Value =
    | Null
    | Bool(b: bool)
    | Num(n: int)
    | Str(s: string)
    | Arr(items: seq<Value>)
    | Obj(fields: map<string, Value>)

  /** A JSON decoder: `None` when the text is not valid JSON. */
  type Parser = string -> Option<Value>

  /** `d.get(key)` on an object; `None` when the key is absent or the value is not an object. */
  function Get(v: Value, key: string): Option<Value> {
    if v.Obj? && key in v.fields then Some(v.fields[key]) else None
  }

  /** `d.get(key, default)`. */
  function GetOr(v: Value, key: string, default: Value): Value {
    OrElse(Get(v, key), default)
  }

  /**
   * `d.get(key, {})` used as the receiver of a further `.get`: an absent key,
   * or a value that is not an object, reads as the empty object.
   */
  function Sub(v: Value, key: string): (r: Value)
    ensures r.Obj?
  {
    match Get(v, key)
    case Some(o) => if o.Obj? then o else Obj(map[])
    case None => Obj(map[])
  }

  /** `d.get(key, default)` for a field read as text: a value that is not a string reads as `default`. */
  function StrOr(v: Value, key: string, default: string): string {
    match Get(v, key)
    case Some(Str(s)) => s
    case _ => default
  }

  /** Python's `v == 0`: true for the number 0 and for `False`. */
  predicate IsZero(v: Value) {
    v == Num(0) || v == Bool(false)
  }

  /** Python truthiness of a decoded value. */
  predicate Truthy(v: Value) {
    match v
    case Null => false
    case Bool(b) => b
    case Num(n) => n != 0
    case Str(s) => s != []
    case Arr(a) => a != []
    case Obj(m) => m != map[]
  }

  /** `str(v)` inside an f-string, for scalars; lists and objects print as a placeholder. */
  function Render(v: Value): string {
    match v
    case Null => "None"
    case Bool(b) => if b then "True" else "False"
    case Num(n) => IntToString(n)
    case Str(s) => s
    case Arr(_) => "[...]"
    case Obj(_) => "{...}"
  }

  /**
   * `str` of a scalar: a string shows as itself, `None` and the booleans by
   * their Python names, and an integer as decimal digits, after a minus sign
   * when negative, that read back as its magnitude.
   */
  lemma RenderScalars(v: Value)
    ensures v.Str? ==> Render(v) == v.s
    ensures v.Null? ==> Render(v) == "None"
    ensures v.Bool? ==> Render(v) == if v.b then "True" else "False"
    ensures v.Num? && v.n >= 0 ==> IsDigits(Render(v)) && DigitsValue(Render(v)) == v.n
    ensures v.Num? && v.n < 0 ==> Render(v) == "-" + Render(Num(-v.n)) && DigitsValue(Render(v)[1..]) == -v.n
  {
    if v.Num? {
      if v.n >= 0 {
        NatToStringRoundTrip(v.n);
      } else {
        NatToStringRoundTrip(-v.n);
        assert Render(v)[1..] == NatToString(-v.n);
      }
    }
  }
}
