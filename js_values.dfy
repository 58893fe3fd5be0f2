/**
 * The JavaScript values a parsed JSON response body can hold, together with
 * the few language rules that the list store's decoding relies on:
 * truthiness, the `||` operator, property access and numeric coercion.
 * Numbers are integers here; floating point is not modelled.
 */
module JsValues {
  import opened Options

  datatype JsValue =
    | Undefined
    | Null
    | Bool(b: bool)
    | Number(n: int)
    | Str(s: string)
    | Array(elems: seq<JsValue>)
    | Object(fields: map<string, JsValue>)

  /** `null` and `undefined`: the values whose properties cannot be read. */
  predicate Nullish(v: JsValue) {
    v.Undefined? || v.Null?
  }

  /** ECMAScript ToBoolean on integral values: everything is truthy except
      undefined, null, false, 0 and the empty string. An empty array or an
      empty object is truthy. */
  predicate Truthy(v: JsValue)
    ensures Truthy(v) ==> !Nullish(v)
    ensures (v.Array? || v.Object?) ==> Truthy(v)
  {
    match v
    case Undefined => false
    case Null => false
    case Bool(b) => b
    case Number(n) => n != 0
    case Str(s) => s != ""
    case Array(_) => true
    case Object(_) => true
  }

  /** `a || b`: the left operand when it is truthy, otherwise the right one. */
  function Or(a: JsValue, b: JsValue): (r: JsValue)
    ensures Truthy(a) ==> r == a
    ensures !Truthy(a) ==> r == b
    ensures Truthy(r) <==> Truthy(a) || Truthy(b)
  {
    if Truthy(a) then a else b
  }

  /** A string's `length`: its count of UTF-16 code units, one for a
      character of the Basic Multilingual Plane and two (a surrogate pair)
      for any character above it. */
  function Utf16Length(s: string): (n: nat)
    ensures |s| <= n <= 2 * |s|
    ensures n == |s| <==> forall i :: 0 <= i < |s| ==> (s[i] as int) < 0x1_0000
  {
    if s == [] then 0
    else (if (s[0] as int) < 0x1_0000 then 1 else 2) + Utf16Length(s[1..])
  }

  /** Reading `v.key`. `None` stands for the TypeError thrown when `v` is
      null or undefined. Own keys of an object, and `length` of arrays and
      strings, are the only properties with a value; every other key reads
      as undefined. */
  function Get(v: JsValue, key: string): (r: Option<JsValue>)
    ensures r.None? <==> Nullish(v)
    ensures v.Object? ==> r == Some(if key in v.fields then v.fields[key] else Undefined)
    ensures v.Array? && key == "length" ==> r == Some(Number(|v.elems|))
    ensures v.Str? && key == "length" ==> r == Some(Number(Utf16Length(v.s)))
    ensures (v.Bool? || v.Number?) ==> r == Some(Undefined)
  {
    match v
    case Undefined => None
    case Null => None
    case Bool(_) => Some(Undefined)
    case Number(_) => Some(Undefined)
    case Str(s) => Some(if key == "length" then Number(Utf16Length(s)) else Undefined)
    case Array(e) => Some(if key == "length" then Number(|e|) else Undefined)
    case Object(f) => Some(if key in f then f[key] else Undefined)
  }

  /** A character outside the Basic Multilingual Plane counts twice. */
  lemma AstralCharacterCountsTwice()
    ensures Get(Str("\U{1F600}"), "length") == Some(Number(2))
  {
    assert "\U{1F600}"[1..] == [];
  }

  /** ECMAScript ToNumber, as used by `x / y`. `None` stands for NaN. */
  function ToNumber(v: JsValue): (r: Option<int>)
    ensures v.Number? ==> r == Some(v.n)
    ensures v.Null? ==> r == Some(0)
    ensures (v.Undefined? || v.Object?) ==> r.None?
  {
    match v
    case Undefined => None
    case Null => Some(0)
    case Bool(b) => Some(if b then 1 else 0)
    case Number(n) => Some(n)
    case Str(s) => if s == "" then Some(0) else None
    case Array(e) => if e == [] then Some(0) else None
    case Object(_) => None
  }
}
