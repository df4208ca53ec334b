/**
 * The JavaScript values the search frontend handles: parsed JSON bodies
 * from a backend instance, the properties it reads from them, JavaScript's
 * truthiness test and the string conversion that `toString()` and template
 * literals apply.
 */
module JsValue {

  datatype Option<T> = None | Some(value: T)

  /**
   * A value produced by `JSON.parse`, plus `undefined`, which is what a
   * missing property reads as. JSON numbers are modelled as integers.
   */
  datatype Value =
    | Undefined
    | Null
    | Bool(b: bool)
    | Num(n: int)
    | Str(s: string)
    | Arr(items: seq<Value>)
    | Obj(fields: map<string, Value>)

  /** Reading a property of these throws a TypeError. */
  predicate Nullish(v: Value) {
    v.Undefined? || v.Null?
  }

  /** JavaScript's ToBoolean: what `if (v)`, `!v` and `v || w` test. */
  predicate Truthy(v: Value) {
    match v
    case Undefined => false
    case Null => false
    case Bool(b) => b
    case Num(n) => n != 0
    case Str(s) => s != ""
    case Arr(_) => true
    case Obj(_) => true
  }

  /** The value of `a || b`. */
  function Or(a: Value, b: Value): Value {
    if Truthy(a) then a else b
  }

  /** `Array.isArray(v)` */
  predicate IsArray(v: Value) {
    v.Arr?
  }

  /**
   * `v.key` on a value that is not null or undefined: an own field of an
   * object, the `length` of an array or a string, and `undefined` otherwise.
   */
  function Prop(v: Value, key: string): Value
    requires !Nullish(v)
  {
    match v
    case Obj(fields) => if key in fields then fields[key] else Undefined
    case Arr(items) => if key == "length" then Num(|items|) else Undefined
    case Str(s) => if key == "length" then Num(|s|) else Undefined
    case _ => Undefined
  }

  /** JavaScript's ToString, as `toString()` and template literals apply it. */
  function ToJsString(v: Value): string
    decreases v
  {
    match v
    case Undefined => "undefined"
    case Null => "null"
    case Bool(b) => if b then "true" else "false"
    case Num(n) => IntToString(n)
    case Str(s) => s
    case Arr(items) => JoinElements(items)
    case Obj(_) => "[object Object]"
  }

  /** `Array.prototype.join(",")`: null and undefined elements print as "". */
  function JoinElements(items: seq<Value>): string
    decreases items
  {
    if items == [] then ""
    else
      var head := if Nullish(items[0]) then "" else ToJsString(items[0]);
      if |items| == 1 then head else head + "," + JoinElements(items[1..])
  }

  function DigitChar(d: nat): char
    requires d < 10
  {
    "0123456789"[d]
  }

  /** Decimal notation of a natural number, as `String(n)` writes it. */
  function NatToString(n: nat): string
    decreases n
  {
    if n < 10 then [DigitChar(n)] else NatToString(n / 10) + [DigitChar(n % 10)]
  }

  function IntToString(n: int): string {
    if n < 0 then "-" + NatToString(-n) else NatToString(n)
  }

  /** `parts.join(sep)` on an array of strings. */
  function Join(parts: seq<string>, sep: string): string {
    if parts == [] then ""
    else if |parts| == 1 then parts[0]
    else parts[0] + sep + Join(parts[1..], sep)
  }

  /**
   * The joined string lists every part, in order: what precedes part `i` is
   * the join of the parts before it, what follows is the join of the rest.
   */
  lemma {:induction false} JoinAt(parts: seq<string>, sep: string, i: nat)
    requires i < |parts|
    ensures Join(parts, sep)
         == (if i == 0 then "" else Join(parts[..i], sep) + sep)
          + parts[i]
          + (if i == |parts| - 1 then "" else sep + Join(parts[i + 1..], sep))
  {
    if i > 0 {
      var rest := parts[1..];
      JoinAt(rest, sep, i - 1);
      assert rest[..i - 1] == parts[1..i];
      assert rest[i..] == parts[i + 1..];
      assert rest[i - 1] == parts[i];
      if i == 1 {
        assert parts[..1] == [parts[0]];
      } else {
        assert parts[..i][1..] == parts[1..i];
      }
    }
  }
}
