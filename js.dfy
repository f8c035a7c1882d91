/**
 * The fragment of JavaScript's value semantics that the service worker relies on:
 * values as JSON parsing and structured cloning produce them, truthiness and `||`,
 * property access, and object spread (`{ ...v }`).
 */
module Js {

  datatype Option<+T> = None | Some(value: T)

  /** A JavaScript value. Numbers are exact reals: JSON has no NaN or infinities,
      and floating-point rounding is not modelled. An object is its own
      enumerable properties. */
  datatype Value =
    | Undefined
    | Null
    | Bool(b: bool)
    | Num(n: real)
    | Str(s: string)
    | Arr(items: seq<Value>)
    | Obj(fields: map<string, Value>)

  /** `null` or `undefined`: the two values whose property access throws. */
  predicate Nullish(v: Value) {
    v.Undefined? || v.Null?
  }

  /** JavaScript truthiness: `false`, `0`, `-0`, `""`, `null` and `undefined` are falsy. */
  predicate Truthy(v: Value) {
    match v
    case Undefined => false
    case Null => false
    case Bool(b) => b
    case Num(n) => n != 0.0
    case Str(s) => s != ""
    case Arr(_) => true
    case Obj(_) => true
  }

  /** The falsy values are exactly `undefined`, `null`, `false`, zero and the empty string. */
  lemma FalsyValues(v: Value)
    ensures !Truthy(v) <==> v in {Undefined, Null, Bool(false), Num(0.0), Str("")}
  {
  }

  /** `a || b`: the first operand when it is truthy, otherwise the second. */
  function Or(a: Value, b: Value): (r: Value)
    ensures Truthy(a) ==> r == a
    ensures !Truthy(a) ==> r == b
    ensures Truthy(r) <==> Truthy(a) || Truthy(b)
  {
    if Truthy(a) then a else b
  }

  /** The property names the worker reads. None of them is an own or inherited
      property of a string, an array, a number or a boolean. */
  const ReadKeys: set<string> := {"title", "timestamp", "url", "type", "payload"}

  /** Property access `v.k` for one of the names the worker reads; `None` is the
      TypeError thrown when `v` is null or undefined. */
  function Prop(v: Value, k: string): (r: Option<Value>)
    requires k in ReadKeys
    ensures r.None? <==> Nullish(v)
    ensures r.Some? && !v.Obj? ==> r.value == Undefined
    ensures v.Obj? && k in v.fields ==> r == Some(v.fields[k])
    ensures v.Obj? && k !in v.fields ==> r == Some(Undefined)
  {
    match v
    case Undefined => None
    case Null => None
    case Obj(fields) => Some(if k in fields then fields[k] else Undefined)
    case _ => Some(Undefined)
  }

  /** Optional chaining `v?.k`: undefined when `v` is null or undefined. */
  function OptionalProp(v: Value, k: string): (r: Value)
    requires k in ReadKeys
    ensures Nullish(v) ==> r == Undefined
    ensures !Nullish(v) ==> Some(r) == Prop(v, k)
  {
    if Nullish(v) then Undefined else Prop(v, k).value
  }

  // ---------------------------------------------------------------------------
  // Array indices as property keys

  function Digit(d: nat): (c: char)
    requires d < 10
    ensures '0' <= c <= '9'
    ensures c as int - '0' as int == d
  {
    "0123456789"[d]
  }

  predicate IsDigits(s: string) {
    forall i :: 0 <= i < |s| ==> '0' <= s[i] <= '9'
  }

  /** The decimal rendering of an index: the key under which it is spread. */
  function Decimal(n: nat): (r: string)
    ensures |r| > 0 && IsDigits(r)
  {
    if n < 10 then [Digit(n)] else Decimal(n / 10) + [Digit(n % 10)]
  }

  /** Reads a digit string as a number; the inverse of Decimal. */
  function ParseDecimal(s: string): nat
    requires IsDigits(s)
  {
    if s == [] then 0
    else ParseDecimal(s[..|s| - 1]) * 10 + (s[|s| - 1] as int - '0' as int)
  }

  lemma {:induction false} ParseDecimalOfDecimal(n: nat)
    ensures ParseDecimal(Decimal(n)) == n
  {
    if n >= 10 {
      var s := Decimal(n);
      assert s[..|s| - 1] == Decimal(n / 10);
      ParseDecimalOfDecimal(n / 10);
    }
  }

  /** Distinct indices are spread under distinct keys. */
  lemma DecimalInjective()
    ensures forall a: nat, b: nat :: Decimal(a) == Decimal(b) ==> a == b
  {
    forall a: nat, b: nat | Decimal(a) == Decimal(b)
      ensures a == b
    {
      ParseDecimalOfDecimal(a);
      ParseDecimalOfDecimal(b);
    }
  }

  /** The own enumerable properties of an array-like value: index `i` under key `Decimal(i)`. */
  function Indexed(items: seq<Value>): (r: map<string, Value>)
    ensures forall i :: 0 <= i < |items| ==> Decimal(i) in r && r[Decimal(i)] == items[i]
    ensures forall k :: k in r ==> exists i :: 0 <= i < |items| && k == Decimal(i)
  {
    if items == [] then map[]
    else
      var last := |items| - 1;
      DecimalInjective();
      Indexed(items[..last])[Decimal(last) := items[last]]
  }

  /** The characters of a string, each as a one-character string value. */
  function Chars(s: string): (r: seq<Value>)
    ensures |r| == |s|
    ensures forall i :: 0 <= i < |s| ==> r[i] == Str([s[i]])
  {
    seq(|s|, i requires 0 <= i < |s| => Str([s[i]]))
  }

  /** The properties `{ ...v }` copies: an object's own properties, the indexed
      elements of an array or the characters of a string, and nothing for the
      other primitives, null and undefined. */
  function Spread(v: Value): (r: map<string, Value>)
    ensures v.Obj? ==> r == v.fields
    ensures v.Arr? ==> forall i :: 0 <= i < |v.items| ==> Decimal(i) in r && r[Decimal(i)] == v.items[i]
    ensures v.Str? ==> forall i :: 0 <= i < |v.s| ==> Decimal(i) in r && r[Decimal(i)] == Str([v.s[i]])
    ensures !(v.Obj? || v.Arr? || v.Str?) ==> r == map[]
  {
    match v
    case Obj(fields) => fields
    case Arr(items) => Indexed(items)
    case Str(s) => Indexed(Chars(s))
    case _ => map[]
  }

  /** `{ ...base, ...over }` on two property maps: the later spread wins. */
  function Merge(base: map<string, Value>, over: map<string, Value>): (r: map<string, Value>)
    ensures r.Keys == base.Keys + over.Keys
    ensures forall k :: k in over ==> r[k] == over[k]
    ensures forall k :: k in base && k !in over ==> r[k] == base[k]
  {
    base + over
  }

  /** Spreading a value never produces a key other than its own fields or
      digit strings, so a string or array payload cannot supply a named option. */
  lemma SpreadKeys(v: Value, k: string)
    requires k in Spread(v)
    ensures v.Obj? || IsDigits(k)
  {
  }
}
