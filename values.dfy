/** The JavaScript values the plugin's options and responses are made of, and
    the three pieces of JavaScript semantics the plugin's rules rest on:
    abstract (loose) equality `!=`, truthiness, and jQuery's shallow
    `$.extend`. */
module JsValues {
  import opened Common

  /** A JavaScript value. An object carries its identity (`id`) and its own
      enumerable properties; two objects are the same object when their
      identities agree. Numbers are exact reals (no NaN, no infinities).
      The only functions and the only object without an identity of its own
      that the plugin can come across are the ones a plain object inherits:
      `Fn(name)` is the function `Object.prototype[name]`, and
      `ObjectPrototype` is `Object.prototype` itself, which has no own
      enumerable property. */
  datatype Value =
    | Undefined
    | Null
    | Bool(b: bool)
    | Num(n: real)
    | Str(s: string)
    | Obj(id: nat, props: map<string, Value>)
    | Fn(name: string)
    | ObjectPrototype

  /** An options object, as a map from property name to value. A missing
      property reads as `undefined`. */
  type Options = map<string, Value>

  function Lookup(o: Options, key: string): Value {
    if key in o then o[key] else Undefined
  }

  /** `v == null` in JavaScript: null or undefined. */
  predicate IsNullish(v: Value) {
    v.Undefined? || v.Null?
  }

  /** `typeof v == "object"`, which holds of null too but not of a
      function (whose `typeof` is "function"). */
  predicate IsObjectTyped(v: Value) {
    v.Obj? || v.ObjectPrototype? || v.Null?
  }

  /** The own enumerable properties of an object; nothing for any other
      value, `Object.prototype` included. */
  function PropsOf(v: Value): Options {
    if v.Obj? then v.props else map[]
  }

  /** JavaScript truthiness. */
  predicate Truthy(v: Value) {
    match v
    case Undefined => false
    case Null => false
    case Bool(b) => b
    case Num(n) => n != 0.0
    case Str(s) => s != ""
    case Obj(_, _) => true
    case Fn(_) => true
    case ObjectPrototype => true
  }

  /** The white space and line terminators that `ToNumber` trims: tab,
      vertical tab, form feed, the Unicode space separators, the
      byte-order mark and the four line terminators. */
  predicate IsSpace(c: char) {
    || c == '\t' || c == '\n' || c == '\U{000B}' || c == '\U{000C}' || c == '\r' || c == ' '
    || c == '\U{00A0}' || c == '\U{1680}' || '\U{2000}' <= c <= '\U{200A}' || c == '\U{2028}' || c == '\U{2029}'
    || c == '\U{202F}' || c == '\U{205F}' || c == '\U{3000}' || c == '\U{FEFF}'
  }

  predicate IsDigit(c: char) {
    '0' <= c <= '9'
  }

  /** The value of a string of decimal digits. */
  function DecimalValue(s: string): nat
    requires forall i :: 0 <= i < |s| ==> IsDigit(s[i])
  {
    if s == [] then 0
    else
      assert IsDigit(s[|s| - 1]);
      DecimalValue(s[..|s| - 1]) * 10 + (s[|s| - 1] as int - '0' as int)
  }

  /** `Number(s)`, with NaN as None: a string of white space is 0, a run of decimal
      digits is its value, anything else is NaN here. */
  function StringToNumber(s: string): Option<real> {
    if forall i :: 0 <= i < |s| ==> IsSpace(s[i]) then Some(0.0)
    else if forall i :: 0 <= i < |s| ==> IsDigit(s[i]) then Some(DecimalValue(s) as real)
    else None
  }

  /** The primitive a value turns into before a mixed-type comparison:
      booleans become numbers, a plain object becomes "[object Object]" and
      a native function its source text. */
  function ToPrimitive(v: Value): Value
    requires !IsNullish(v)
  {
    match v
    case Bool(b) => Num(if b then 1.0 else 0.0)
    case Obj(_, _) => Str("[object Object]")
    case ObjectPrototype => Str("[object Object]")
    case Fn(name) => Str("function " + name + "() { [native code] }")
    case _ => v
  }

  /** Values that are references (objects and functions), which `==`
      compares by identity. */
  predicate IsReference(v: Value) {
    v.Obj? || v.Fn? || v.ObjectPrototype?
  }

  /** Two references denote the same object. */
  predicate SameReference(a: Value, b: Value)
    requires IsReference(a) && IsReference(b)
  {
    match a
    case Obj(id, _) => b.Obj? && b.id == id
    case Fn(name) => b == Fn(name)
    case ObjectPrototype => b.ObjectPrototype?
  }

  /** Equality of two primitives (numbers or strings), converting a string to
      a number when the types differ. */
  predicate PrimitiveEquals(a: Value, b: Value) {
    if a.Num? && b.Num? then a.n == b.n
    else if a.Str? && b.Str? then a.s == b.s
    else if a.Num? && b.Str? then StringToNumber(b.s) == Some(a.n)
    else if a.Str? && b.Num? then StringToNumber(a.s) == Some(b.n)
    else false
  }

  /** JavaScript's `a == b` (the abstract equality comparison). */
  predicate LooseEquals(a: Value, b: Value)
    ensures IsNullish(a) ==> (LooseEquals(a, b) <==> IsNullish(b))
    ensures IsReference(a) && IsReference(b) ==> (LooseEquals(a, b) <==> SameReference(a, b))
    ensures a.Str? && b.Num? ==> (LooseEquals(a, b) <==> StringToNumber(a.s) == Some(b.n))
    ensures a.Bool? && b.Str? ==>
              (LooseEquals(a, b) <==> StringToNumber(b.s) == Some(if a.b then 1.0 else 0.0))
  {
    if IsNullish(a) || IsNullish(b) then IsNullish(a) && IsNullish(b)
    else if IsReference(a) && IsReference(b) then SameReference(a, b)
    else PrimitiveEquals(ToPrimitive(a), ToPrimitive(b))
  }

  /** `==` is symmetric, so the order of the operands in the plugin's
      `data.options[option] != options[option]` does not matter. */
  lemma LooseEqualsSymmetric(a: Value, b: Value)
    ensures LooseEquals(a, b) <==> LooseEquals(b, a)
  {
  }

  /** `==` agrees with `===` on two values of the same primitive type. */
  lemma LooseEqualsSameType(a: Value, b: Value)
    requires (a.Str? && b.Str?) || (a.Bool? && b.Bool?) || (a.Num? && b.Num?)
    ensures LooseEquals(a, b) <==> a == b
  {
  }

  /** The properties every plain object inherits from `Object.prototype`,
      so that `table[name]` is truthy for each of them in any of the
      plugin's lookup tables. */
  const InheritedNames: set<string> := {
    "constructor", "hasOwnProperty", "isPrototypeOf", "propertyIsEnumerable",
    "toLocaleString", "toString", "valueOf", "__proto__",
    "__defineGetter__", "__defineSetter__", "__lookupGetter__", "__lookupSetter__"
  }

  /** The inherited names whose value throws a TypeError when it is called
      with no function argument: `__proto__` is an object, not a function,
      and `__defineGetter__`/`__defineSetter__` demand a function. */
  const ThrowingInherited: set<string> := {"__proto__", "__defineGetter__", "__defineSetter__"}

  /** `table[name]` for an inherited name. */
  function InheritedMember(name: string): (v: Value)
    requires name in InheritedNames
    ensures Truthy(v)
    ensures IsObjectTyped(v) <==> name == "__proto__"
  {
    if name == "__proto__" then ObjectPrototype else Fn(name)
  }

  /** The keys of `source` whose value is not undefined: the ones `$.extend`
      copies. */
  function DefinedKeys(source: Options): set<string> {
    set k | k in source && source[k] != Undefined
  }

  /** jQuery's shallow `$.extend(target, source)`: every property of `source`
      that is not undefined overwrites, the rest of `target` stays. */
  function Extend(target: Options, source: Options): (r: Options)
    ensures r.Keys == target.Keys + DefinedKeys(source)
    ensures forall k :: k in DefinedKeys(source) ==> r[k] == source[k]
    ensures forall k :: k in target && k !in DefinedKeys(source) ==> r[k] == target[k]
  {
    map k | k in target.Keys + DefinedKeys(source) ::
      if k in DefinedKeys(source) then source[k] else target[k]
  }

  /** Reading a key of an extended object: the source wins unless its value
      is undefined. */
  lemma LookupExtend(target: Options, source: Options, k: string)
    ensures Lookup(Extend(target, source), k)
            == if Lookup(source, k) != Undefined then Lookup(source, k) else Lookup(target, k)
  {
  }
}
