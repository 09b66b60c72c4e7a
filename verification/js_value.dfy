/**
 JavaScript values as far as the handlers and the page touch them: JSON
 values, `undefined`, truthiness, property reads (plain and optional
 chaining), and the abstract `JSON.parse`.
 */
module JsValue {

  datatype Option<+T> = None | Some(value: T)

  /** A JSON value. Object key order is not modelled; numbers are never
      computed with, so they are kept as reals. */
  datatype Json =
    | JNull
    | JBool(b: bool)
    | JNumber(n: real)
    | JString(s: string)
    | JArray(items: seq<Json>)
    | JObject(fields: map<string, Json>)

  /** A read of a property that may be `undefined`: `None` is `undefined`. */
  type Value = Option<Json>

  /** The key of a property read: `.name` or `[index]`. */
  datatype Key = Name(name: string) | Index(i: nat)

  /** `JSON.parse`: a parsed value, or the `SyntaxError` it throws. */
  datatype ParseResult = Parsed(value: Json) | SyntaxError(message: string)

  /** The parser is left abstract; every statement about the handlers holds
      for every parser. */
  type JsonParser = string -> ParseResult

  function Digit(d: nat): char
    requires d < 10
  {
    "0123456789"[d]
  }

  /** The decimal spelling of `n`, which is how an index names an object key. */
  function DecimalString(n: nat): (s: string)
    ensures |s| > 0
    decreases n
  {
    if n < 10 then [Digit(n)] else DecimalString(n / 10) + [Digit(n % 10)]
  }

  predicate Nullish(v: Value) {
    v.None? || v.value.JNull?
  }

  /** JavaScript truthiness: `undefined`, `null`, `false`, `0` and `""` are
      falsy (NaN is not a JSON value). */
  function Truthy(v: Value): (b: bool)
    ensures Nullish(v) ==> !b
    ensures v.Some? && (v.value.JArray? || v.value.JObject?) ==> b
  {
    match v
    case None => false
    case Some(JNull) => false
    case Some(JBool(b)) => b
    case Some(JNumber(n)) => n != 0.0
    case Some(JString(s)) => s != ""
    case Some(JArray(_)) => true
    case Some(JObject(_)) => true
  }

  /** Reading `k` from a value that is neither `null` nor `undefined`.
      Built-in properties of strings and arrays (such as `length`) are not
      modelled; no name read by the handlers or the page is one of them. */
  function Member(v: Json, k: Key): (r: Value)
    ensures v.JObject? && k.Name? ==> r == (if k.name in v.fields then Some(v.fields[k.name]) else None)
    ensures v.JArray? && k.Index? ==> r == (if k.i < |v.items| then Some(v.items[k.i]) else None)
    ensures !v.JObject? && !v.JArray? && !v.JString? ==> r == None
  {
    match (v, k)
    case (JObject(m), Name(n)) => if n in m then Some(m[n]) else None
    case (JObject(m), Index(i)) =>
      var n := DecimalString(i);
      if n in m then Some(m[n]) else None
    case (JArray(items), Index(i)) => if i < |items| then Some(items[i]) else None
    case (JString(s), Index(i)) => if i < |s| then Some(JString([s[i]])) else None
    case _ => None
  }

  /** The outcome of a plain property read: a value, or the `TypeError`
      thrown when the base is `null` or `undefined`. */
  datatype Read = Throws | Read(value: Value)

  /** `base.k` */
  function Get(base: Value, k: Key): (r: Read)
    ensures r.Throws? <==> Nullish(base)
    ensures !Nullish(base) ==> r == Read(Member(base.value, k))
  {
    if Nullish(base) then Throws else Read(Member(base.value, k))
  }

  /** `base?.k1?.k2…`: a nullish step short-circuits the rest to `undefined`. */
  function OptionalChain(base: Value, keys: seq<Key>): Value
    decreases |keys|
  {
    if keys == [] then base
    else if Nullish(base) then None
    else OptionalChain(Member(base.value, keys[0]), keys[1..])
  }

  /** `base.k1.k2…`: a nullish step before the last read throws. */
  function StrictChain(base: Value, keys: seq<Key>): Read
    decreases |keys|
  {
    if keys == [] then Read(base)
    else match Get(base, keys[0])
      case Throws => Throws
      case Read(v) => StrictChain(v, keys[1..])
  }

  /** When an optional chain yields something other than `null` or
      `undefined`, every step was defined, so the same chain written with
      plain reads yields the same value and does not throw. */
  lemma {:induction false} OptionalChainAgreesWithStrict(base: Value, keys: seq<Key>)
    requires !Nullish(OptionalChain(base, keys))
    ensures StrictChain(base, keys) == Read(OptionalChain(base, keys))
    decreases |keys|
  {
    if keys != [] {
      OptionalChainAgreesWithStrict(Member(base.value, keys[0]), keys[1..]);
    }
  }

  /** The keys `{...v}` copies into a new object literal. */
  function SpreadFields(v: Value): (m: map<string, Json>)
    ensures v.Some? && v.value.JObject? ==> m == v.value.fields
    ensures Nullish(v) ==> m == map[]
  {
    match v
    case Some(JObject(fields)) => fields
    case _ => map[]
  }

  /** Every JSON text that parses still parses to the same value with a line
      feed after it: a line feed is JSON whitespace (section 2 of RFC 8259). */
  ghost predicate TrailingNewlineInsignificant(parse: JsonParser) {
    forall t :: parse(t).Parsed? ==> parse(t + "\n") == parse(t)
  }

  /** No JSON text begins with a backtick. */
  ghost predicate RejectsBacktick(parse: JsonParser) {
    forall t :: t != [] && t[0] == '`' ==> parse(t).SyntaxError?
  }
}
