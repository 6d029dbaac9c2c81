/**
 * JavaScript values as the modelled code handles them: truthiness, `String(v)`
 * (as used by `Array.prototype.join` and template literals), object spread and
 * the two Hoek merge flavours.
 */
module JsValue {
  import opened JsString

  /** Numbers are integers here; host objects (functions, dates, buffers) are
      `Opaque`, carrying the text their `toString` yields. */
  datatype Value =
    | Undefined
    | Null
    | Bool(b: bool)
    | Num(n: int)
    | Str(s: string)
    | Arr(items: seq<Value>)
    | Obj(fields: map<string, Value>)
    | Opaque(text: string)

  type Object = map<string, Value>

  /** `Boolean(v)`. */
  predicate Truthy(v: Value) {
    match v
    case Undefined => false
    case Null => false
    case Bool(b) => b
    case Num(n) => n != 0
    case Str(s) => s != ""
    case Arr(_) => true
    case Obj(_) => true
    case Opaque(_) => true
  }

  function IntToString(n: int): string {
    if n < 0 then "-" + NatToString(-n) else NatToString(n)
  }

  /** `String(v)`. */
  function ToString(v: Value): string
    decreases v, 1
  {
    match v
    case Undefined => "undefined"
    case Null => "null"
    case Bool(b) => if b then "true" else "false"
    case Num(n) => IntToString(n)
    case Str(s) => s
    case Arr(items) => ArrayJoin(items, v)
    case Obj(_) => "[object Object]"
    case Opaque(t) => t
  }

  /** `items.join(',')`: `null` and `undefined` elements render as empty text. */
  function ArrayJoin(items: seq<Value>, ghost whole: Value): string
    requires forall k :: 0 <= k < |items| ==> items[k] < whole
    decreases whole, 0, |items|
  {
    if |items| == 0 then ""
    else
      var first := if items[0].Undefined? || items[0].Null? then "" else ToString(items[0]);
      if |items| == 1 then first else first + "," + ArrayJoin(items[1..], whole)
  }

  /** The string of an array that has one element, `String([x])`. */
  lemma SingletonArrayString(x: Value)
    ensures ToString(Arr([x])) == if x.Undefined? || x.Null? then "" else ToString(x)
  {
  }

  /** `{...a, ...b}`: every key of `b` wins, `undefined` values included. */
  function Spread(a: Object, b: Object): (r: Object)
    ensures r.Keys == a.Keys + b.Keys
    ensures forall k :: k in b ==> r[k] == b[k]
    ensures forall k :: k in a && k !in b ==> r[k] == a[k]
  {
    a + b
  }

  /** The keys of `b` whose values are neither `null` nor `undefined`. */
  function Defined(b: Object): (r: Object)
    ensures forall k :: k in r <==> k in b && !b[k].Undefined? && !b[k].Null?
    ensures forall k :: k in r ==> r[k] == b[k]
  {
    map k | k in b && !b[k].Undefined? && !b[k].Null? :: b[k]
  }

  /**
   * `Hoek.applyToDefaults(defaults, source)` on flat objects: a key of `source`
   * overrides the default unless its value is `null` or `undefined`.
   */
  function ApplyToDefaults(defaults: Object, source: Object): (r: Object)
    ensures forall k :: k in r <==> k in defaults || (k in source && !source[k].Undefined? && !source[k].Null?)
    ensures forall k :: k in source && !source[k].Undefined? && !source[k].Null? ==> r[k] == source[k]
    ensures forall k :: k in defaults && (k !in source || source[k].Undefined? || source[k].Null?) ==> r[k] == defaults[k]
  {
    defaults + Defined(source)
  }

  /** `obj[key]`: `undefined` when the key is absent. */
  function Get(obj: Object, key: string): Value {
    if key in obj then obj[key] else Undefined
  }
}
