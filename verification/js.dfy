/** The slice of JavaScript's value semantics the proxy and the editor
    depend on: JSON-shaped values plus `undefined`, truthiness (what `||`
    and `!` test), `String(v)` (what a template literal prints), property
    reads, and thrown values. */
module Js {
  import opened Optional
  import Text

  /** A JavaScript value as it crosses `JSON.parse`, `JSON.stringify` or a
      property read. A number is held as its JavaScript string form
      (`String(n)`), which is all the model ever does with it. */
  datatype Value =
    | Undefined
    | Null
    | Bool(flag: bool)
    | Num(text: string)
    | Str(chars: string)
    | Arr(items: seq<Value>)
    | Obj(fields: map<string, Value>)

  /** The number `n`, as `JSON.parse` or a literal would produce it. */
  function NumOf(n: nat): (v: Value)
    ensures v.Num? && Text.IsDigits(v.text)
  {
    Num(Text.Decimal(n))
  }

  /** `null` or `undefined`: the two values whose properties cannot be read. */
  predicate Nullish(v: Value) {
    v.Undefined? || v.Null?
  }

  /** JavaScript truthiness: `false`, `0`, `-0`, `NaN`, `""`, `null` and
      `undefined` are falsy; everything else is truthy. */
  predicate Truthy(v: Value) {
    match v
    case Undefined => false
    case Null => false
    case Bool(b) => b
    case Num(t) => t != "0" && t != "-0" && t != "NaN"
    case Str(s) => s != ""
    case Arr(_) => true
    case Obj(_) => true
  }

  /** `String(v)`: what `${v}` prints. An array prints its elements joined
      with commas, `null` and `undefined` elements printing as nothing. */
  function Show(v: Value): (s: string)
    decreases v
  {
    match v
    case Undefined => "undefined"
    case Null => "null"
    case Bool(b) => if b then "true" else "false"
    case Num(t) => t
    case Str(s) => s
    case Arr(items) => ShowItems(items)
    case Obj(_) => "[object Object]"
  }

  function ShowItems(items: seq<Value>): string
    decreases items
  {
    if items == [] then ""
    else
      var head := if Nullish(items[0]) then "" else Show(items[0]);
      if |items| == 1 then head else head + "," + ShowItems(items[1..])
  }

  /** `v || fallback` where the result is used as text: the value printed
      when truthy, the fallback otherwise. */
  function OrElse(v: Value, fallback: string): (s: string)
    ensures Truthy(v) ==> s == Show(v)
    ensures !Truthy(v) ==> s == fallback
    ensures v.Str? ==> s == (if v.chars == "" then fallback else v.chars)
    ensures fallback != "" && (v.Str? || !Truthy(v)) ==> s != ""
  {
    if Truthy(v) then Show(v) else fallback
  }

  /** `v.key` on a value that is neither `null` nor `undefined`: an own
      field of an object, `undefined` otherwise. The keys this model reads
      (`stdout`, `error`, `description`, ...) name no property of strings,
      numbers, booleans or arrays. */
  function Get(v: Value, key: string): (r: Value)
    requires !Nullish(v)
    ensures v.Obj? && key in v.fields ==> r == v.fields[key]
    ensures !(v.Obj? && key in v.fields) ==> r == Undefined
  {
    if v.Obj? && key in v.fields then v.fields[key] else Undefined
  }

  /** `v?.key`: `undefined` when `v` is `null` or `undefined`. */
  function GetOptional(v: Value, key: string): (r: Value)
    ensures Nullish(v) ==> r == Undefined
    ensures !Nullish(v) ==> r == Get(v, key)
  {
    if Nullish(v) then Undefined else Get(v, key)
  }

  /** A thrown value: its `message` property when it has one (every
      `Error` does) and `String(value)`. */
  datatype Thrown = Thrown(message: Option<string>, text: string)

  /** An `Error` with the given constructor name and message; `String(e)`
      is `"Name: message"`, or just `"Name"` for an empty message. */
  function ErrorOf(name: string, message: string): (e: Thrown)
    ensures e.message == Some(message)
  {
    Thrown(Some(message), if message == "" then name else name + ": " + message)
  }

  /** The message of the `TypeError` raised by `v.key` when `v` is `null`
      or `undefined` (V8's wording). */
  function ReadFailure(v: Value, key: string): (m: string)
    requires Nullish(v)
    ensures m != ""
  {
    "Cannot read properties of " + (if v.Null? then "null" else "undefined") + " (reading '" + key + "')"
  }
}
