/**
 * JavaScript values as the API client in src/services/api.ts sees them: what
 * `response.json()` produces, plus `undefined` and Error objects (the values a
 * `catch` block receives). Numbers are integers.
 *
 * Objects are ordered property lists. Reading a property takes its first
 * occurrence; writing one replaces the first occurrence in place or appends
 * it, which is how an object literal such as `{...chat, title: t}` orders its
 * keys.
 */
module JsValues {
  import opened Joining

  datatype Prop = Prop(key: string, value: Value)

  datatype Value =
    | Undefined
    | Null
    | Bool(b: bool)
    | Num(n: int)
    | Str(s: string)
    | Arr(items: seq<Value>)
    | Obj(props: seq<Prop>)
    | ErrorObj(name: string, message: string)

  /** How a JavaScript statement ends: normally with a value, or by throwing one. */
  datatype Completion<T> = Normal(value: T) | Throw(thrown: Value)

  /** JavaScript truthiness: `undefined`, `null`, `false`, `0` and `""` are falsy. */
  predicate Truthy(v: Value)
  {
    match v
    case Undefined => false
    case Null => false
    case Bool(b) => b
    case Num(n) => n != 0
    case Str(s) => s != ""
    case _ => true
  }

  /** The `typeof` operator. Note that `typeof null` is "object". */
  function TypeOf(v: Value): (r: string)
    ensures r == "object" <==> v.Null? || v.Arr? || v.Obj? || v.ErrorObj?
  {
    match v
    case Undefined => "undefined"
    case Null => "object"
    case Bool(_) => "boolean"
    case Num(_) => "number"
    case Str(_) => "string"
    case _ => "object"
  }

  predicate IsObjectType(v: Value)
  {
    TypeOf(v) == "object"
  }

  /** `new Error(message)`. */
  function NewError(message: string): Value
  {
    ErrorObj("Error", message)
  }

  predicate IsTypeError(v: Value)
  {
    v.ErrorObj? && v.name == "TypeError"
  }

  /** The first value stored under `key`, or `undefined`. */
  function Lookup(props: seq<Prop>, key: string): (r: Value)
    ensures r == Undefined || exists i :: 0 <= i < |props| && props[i].value == r
  {
    if props == [] then Undefined
    else if props[0].key == key then props[0].value
    else Lookup(props[1..], key)
  }

  /**
   * Property read `v.key`. Reading from `null` or `undefined` throws a
   * TypeError (worded as V8 words it); the client never reads `length`, an
   * index or an inherited key, so every other value yields `undefined`.
   */
  function Get(v: Value, key: string): (r: Completion<Value>)
    ensures r.Throw? <==> v.Null? || v.Undefined?
    ensures r.Throw? ==> IsTypeError(r.thrown)
    ensures v.Obj? ==> r == Normal(Lookup(v.props, key))
    ensures v.ErrorObj? && key != "name" && key != "message" ==> r == Normal(Undefined)
  {
    match v
    case Undefined => Throw(ErrorObj("TypeError", "Cannot read " + "properties of " + "undefined (reading '" + key + "')"))
    case Null => Throw(ErrorObj("TypeError", "Cannot read " + "properties of null " + "(reading '" + key + "')"))
    case Obj(props) => Normal(Lookup(props, key))
    case ErrorObj(name, message) =>
      Normal(if key == "name" then Str(name) else if key == "message" then Str(message) else Undefined)
    case _ => Normal(Undefined)
  }

  /** Property write: the value of an existing key changes in place, a new key goes last. */
  function SetProp(props: seq<Prop>, key: string, x: Value): (r: seq<Prop>)
  {
    if props == [] then [Prop(key, x)]
    else if props[0].key == key then [Prop(key, x)] + props[1..]
    else [props[0]] + SetProp(props[1..], key, x)
  }

  /** After writing `key`, reading it gives the written value. */
  lemma {:induction false} LookupSetSame(props: seq<Prop>, key: string, x: Value)
    ensures Lookup(SetProp(props, key, x), key) == x
  {
    if props != [] && props[0].key != key {
      LookupSetSame(props[1..], key, x);
    }
  }

  /** Writing `key` leaves every other key reading as before. */
  lemma {:induction false} LookupSetOther(props: seq<Prop>, key: string, x: Value, other: string)
    requires other != key
    ensures Lookup(SetProp(props, key, x), other) == Lookup(props, other)
  {
    if props != [] && props[0].key != key {
      LookupSetOther(props[1..], key, x, other);
    }
  }

  /**
   * The own enumerable properties that `{...v}` copies: an object's
   * properties, the indexed elements of an array or the characters of a
   * string; nothing for the other values.
   */
  function Spread(v: Value): seq<Prop>
  {
    match v
    case Obj(props) => props
    case Arr(items) => seq(|items|, i requires 0 <= i < |items| => Prop(NatToDecimal(i), items[i]))
    case Str(s) => seq(|s|, i requires 0 <= i < |s| => Prop(NatToDecimal(i), Str([s[i]])))
    case _ => []
  }

  /** Decimal digits of a natural number, most significant first. */
  function NatToDecimal(n: nat): (r: string)
    ensures r != []
    decreases n
  {
    if n < 10 then [DigitChar(n)] else NatToDecimal(n / 10) + [DigitChar(n % 10)]
  }

  function DigitChar(d: nat): char
    requires d < 10
  {
    "0123456789"[d]
  }

  function IntToDecimal(n: int): (r: string)
    ensures r != []
  {
    if n < 0 then "-" + NatToDecimal(-n) else NatToDecimal(n)
  }

  /** `Error.prototype.toString`: the name, ": " and the message, either part omitted when empty. */
  function ErrorToString(name: string, message: string): string
  {
    if name == "" then message
    else if message == "" then name
    else name + ": " + message
  }

  /**
   * `String(v)`. An array joins its elements' strings with "," (`null` and
   * `undefined` elements give ""), a plain object is "[object Object]".
   */
  function ToStr(v: Value): string
    decreases v
  {
    match v
    case Undefined => "undefined"
    case Null => "null"
    case Bool(b) => if b then "true" else "false"
    case Num(n) => IntToDecimal(n)
    case Str(s) => s
    case Arr(items) =>
      JoinWith(seq(|items|, i requires 0 <= i < |items| =>
                    if items[i].Null? || items[i].Undefined? then "" else ToStr(items[i])), ",")
    case Obj(_) => "[object Object]"
    case ErrorObj(name, message) => ErrorToString(name, message)
  }

  /**
   * `JSON.stringify(v)` for a value other than `undefined`. Properties whose
   * value is `undefined` are skipped, `undefined` array elements become
   * `null`, and an Error object has no enumerable properties, so it is "{}".
   */
  function Stringify(v: Value): (r: string)
    requires !v.Undefined?
    ensures r != []
    decreases v
  {
    match v
    case Null => "null"
    case Bool(b) => if b then "true" else "false"
    case Num(n) => IntToDecimal(n)
    case Str(s) => Quote(s)
    case Arr(items) =>
      "[" + JoinWith(seq(|items|, i requires 0 <= i < |items| =>
                          if items[i].Undefined? then "null" else Stringify(items[i])), ",") + "]"
    case Obj(props) =>
      var shown := DefinedProps(props);
      "{" + JoinWith(seq(|shown|, i requires 0 <= i < |shown| =>
                          Quote(shown[i].key) + ":" + Stringify(shown[i].value)), ",") + "}"
    case ErrorObj(_, _) => "{}"
  }

  /** The properties whose value is not `undefined`, in order. */
  function DefinedProps(props: seq<Prop>): (r: seq<Prop>)
    ensures forall p :: p in r ==> p in props && !p.value.Undefined?
  {
    if props == [] then []
    else if props[0].value.Undefined? then DefinedProps(props[1..])
    else [props[0]] + DefinedProps(props[1..])
  }

  /** A JSON string literal (section 25.5.2 of ECMA-262, QuoteJSONString). */
  function Quote(s: string): string
  {
    "\"" + Escape(s) + "\""
  }

  function Escape(s: string): string
  {
    if s == [] then "" else EscapeChar(s[0]) + Escape(s[1..])
  }

  function EscapeChar(c: char): string
  {
    if c == '"' then "\\\""
    else if c == '\\' then "\\\\"
    else if c == '\U{8}' then "\\b"
    else if c == '\t' then "\\t"
    else if c == '\n' then "\\n"
    else if c == '\U{C}' then "\\f"
    else if c == '\r' then "\\r"
    else if c < ' ' then "\\u00" + [HexDigit(c as int / 16), HexDigit(c as int % 16)]
    else [c]
  }

  function HexDigit(d: nat): char
    requires d < 16
  {
    "0123456789abcdef"[d]
  }
}
