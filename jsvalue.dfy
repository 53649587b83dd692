/**
 * JavaScript values as the upstream's JSON payloads, request parameters and
 * cached entries carry them: truthiness, own-property lookup and assignment,
 * object spread, `String(v)` and `JSON.stringify`.
 *
 * Numbers are integers (no fractions, NaN or -0). An object is the sequence
 * of its own enumerable properties in insertion order, which is the order
 * `JSON.stringify` and object spread visit them in.
 */
module JsValue {
  import opened Text
  import opened Seqs

  datatype Value =
    | Undefined
    | Null
    | Bool(b: bool)
    | Num(n: int)
    | Str(s: string)
    | Arr(items: seq<Value>)
    | Obj(props: seq<Prop>)

  datatype Prop = Prop(key: string, val: Value)

  /** JavaScript truthiness: `undefined`, `null`, `false`, `0` and `""` are falsy. */
  predicate Truthy(v: Value) {
    match v
    case Undefined => false
    case Null => false
    case Bool(b) => b
    case Num(n) => n != 0
    case Str(s) => s != ""
    case Arr(_) => true
    case Obj(_) => true
  }

  /** The value of own property `key` of a property list, `undefined` if absent. */
  function GetProp(props: seq<Prop>, key: string): Value {
    if |props| == 0 then Undefined
    else if props[0].key == key then props[0].val
    else GetProp(props[1..], key)
  }

  /** `v[key]` for a plain record; a non-object has no such property here. */
  function Get(v: Value, key: string): Value {
    if v.Obj? then GetProp(v.props, key) else Undefined
  }

  /** The property names of a property list, in order. */
  function Keys(props: seq<Prop>): seq<string> {
    if |props| == 0 then [] else [props[0].key] + Keys(props[1..])
  }

  predicate HasKey(props: seq<Prop>, key: string) {
    key in Keys(props)
  }

  /** What every JavaScript object satisfies: no property name twice. */
  predicate DistinctKeys(props: seq<Prop>) {
    NoDuplicates(Keys(props))
  }

  /** `o[key] = val`: an existing property keeps its place, a new one goes last. */
  function SetProp(props: seq<Prop>, key: string, val: Value): seq<Prop> {
    if |props| == 0 then [Prop(key, val)]
    else if props[0].key == key then [Prop(key, val)] + props[1..]
    else [props[0]] + SetProp(props[1..], key, val)
  }

  /** `{...target, ...source}`: the source's properties assigned in order. */
  function Spread(target: seq<Prop>, source: seq<Prop>): seq<Prop>
    decreases |source|
  {
    if |source| == 0 then target
    else Spread(SetProp(target, source[0].key, source[0].val), source[1..])
  }

  lemma {:induction false} SetPropGet(props: seq<Prop>, key: string, val: Value, other: string)
    ensures GetProp(SetProp(props, key, val), other) ==
            if other == key then val else GetProp(props, other)
  {
    if |props| > 0 && props[0].key != key {
      SetPropGet(props[1..], key, val, other);
    }
  }

  lemma {:induction false} GetPropAbsent(props: seq<Prop>, key: string)
    requires !HasKey(props, key)
    ensures GetProp(props, key) == Undefined
  {
    if |props| > 0 {
      GetPropAbsent(props[1..], key);
    }
  }

  /** Assignment adds the name at the end when it is new, and keeps the
      property names as they are otherwise. */
  lemma {:induction false} SetPropKeys(props: seq<Prop>, key: string, val: Value)
    ensures Keys(SetProp(props, key, val)) ==
            if key in Keys(props) then Keys(props) else Keys(props) + [key]
  {
    if |props| > 0 && props[0].key != key {
      SetPropKeys(props[1..], key, val);
      var k1 := Keys(props[1..]);
      if key !in k1 {
        assert [props[0].key] + (k1 + [key]) == ([props[0].key] + k1) + [key];
      }
    }
  }

  lemma {:induction false} SetPropDistinct(props: seq<Prop>, key: string, val: Value)
    requires DistinctKeys(props)
    ensures DistinctKeys(SetProp(props, key, val))
    ensures HasKey(SetProp(props, key, val), key)
  {
    SetPropKeys(props, key, val);
    if key !in Keys(props) {
      NoDuplicatesSnoc(Keys(props), key);
    }
  }

  /** Object spread never produces a repeated property name. */
  lemma {:induction false} SpreadDistinct(target: seq<Prop>, source: seq<Prop>)
    requires DistinctKeys(target)
    ensures DistinctKeys(Spread(target, source))
    decreases |source|
  {
    if |source| > 0 {
      SetPropDistinct(target, source[0].key, source[0].val);
      SpreadDistinct(SetProp(target, source[0].key, source[0].val), source[1..]);
    }
  }

  /** After `{...target, ...source}` a property of `source` has the value
      `source` gives it, and every other property the value in `target`. */
  lemma {:induction false} SpreadGet(target: seq<Prop>, source: seq<Prop>, key: string)
    ensures !HasKey(source, key) ==> GetProp(Spread(target, source), key) == GetProp(target, key)
    ensures DistinctKeys(source) && HasKey(source, key) ==>
              GetProp(Spread(target, source), key) == GetProp(source, key)
    decreases |source|
  {
    if |source| > 0 {
      var t' := SetProp(target, source[0].key, source[0].val);
      SetPropGet(target, source[0].key, source[0].val, key);
      SpreadGet(t', source[1..], key);
      assert Keys(source) == [source[0].key] + Keys(source[1..]);
      if DistinctKeys(source) {
        NoDuplicatesTail(Keys(source));
      }
    }
  }

  /** The property list of a record, `{}` for anything that is not an object. */
  function PropsOf(v: Value): seq<Prop> {
    if v.Obj? then v.props else []
  }

  /** `x || 0` for a points field that holds a number or a falsy value: the
      number itself, and zero for `undefined`, `null`, `false`, `0` and `""`.
      JavaScript keeps a truthy non-number (`"10"`, `true`, an object), and
      the `+` that follows then concatenates or coerces it; this function
      reads such a field as zero instead. */
  function NumOr0(v: Value): int {
    if v.Num? then v.n else 0
  }

  /** `String(v)`, as `new Error(v)` and property-key conversion apply it. */
  function ToJsString(v: Value): string {
    match v
    case Undefined => "undefined"
    case Null => "null"
    case Bool(b) => if b then "true" else "false"
    case Num(n) => IntToString(n)
    case Str(s) => s
    case Arr(items) =>
      Join(seq(|items|, i requires 0 <= i < |items| =>
        if items[i].Undefined? || items[i].Null? then "" else ToJsString(items[i])))
    case Obj(_) => "[object Object]"
  }

  /** `parts.join(",")`. */
  function Join(parts: seq<string>): string {
    if |parts| == 0 then ""
    else if |parts| == 1 then parts[0]
    else parts[0] + "," + Join(parts[1..])
  }

  /** The escape `JSON.stringify` writes for one character of a string. */
  function EscapeChar(c: char): string {
    if c == '"' then "\\\""
    else if c == '\\' then "\\\\"
    else if c == '\U{8}' then "\\b"
    else if c == '\U{C}' then "\\f"
    else if c == '\n' then "\\n"
    else if c == '\r' then "\\r"
    else if c == '\t' then "\\t"
    else if (c as int) < 0x20 then "\\u00" + [HexDigit(c as int / 16), HexDigit(c as int % 16)]
    else [c]
  }

  function HexDigit(d: nat): char
    requires d < 16
  {
    if d < 10 then ('0' as int + d) as char else ('a' as int + d - 10) as char
  }

  function Escape(s: string): string {
    if |s| == 0 then "" else EscapeChar(s[0]) + Escape(s[1..])
  }

  function Quote(s: string): string {
    "\"" + Escape(s) + "\""
  }

  /** `JSON.stringify(v)`. An `undefined` array element is written `null`;
      an object property whose value is `undefined` is omitted. */
  function Json(v: Value): string
    decreases v, 1
  {
    match v
    case Undefined => "null"
    case Null => "null"
    case Bool(b) => if b then "true" else "false"
    case Num(n) => IntToString(n)
    case Str(s) => Quote(s)
    case Arr(items) => "[" + JsonElements(items) + "]"
    case Obj(props) => "{" + JsonMembers(props) + "}"
  }

  function JsonElements(items: seq<Value>): string
    decreases items, 0
  {
    if |items| == 0 then ""
    else if |items| == 1 then Json(items[0])
    else Json(items[0]) + "," + JsonElements(items[1..])
  }

  function JsonMembers(props: seq<Prop>): string
    decreases props, 0
  {
    if |props| == 0 then ""
    else if props[0].val.Undefined? then JsonMembers(props[1..])
    else
      var member := Quote(props[0].key) + ":" + Json(props[0].val);
      var rest := JsonMembers(props[1..]);
      if rest == "" then member else member + "," + rest
  }

  /** The serialisation follows the properties' insertion order, so two
      objects with the same properties in different orders serialise
      differently. */
  lemma JsonDependsOnKeyOrder()
    ensures Json(Obj([Prop("a", Num(1)), Prop("b", Num(2))]))
         != Json(Obj([Prop("b", Num(2)), Prop("a", Num(1))]))
  {
    assert Json(Obj([Prop("a", Num(1)), Prop("b", Num(2))]))[2] == 'a';
    assert Json(Obj([Prop("b", Num(2)), Prop("a", Num(1))]))[2] == 'b';
  }
}
