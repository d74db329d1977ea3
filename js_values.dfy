/**
 * The part of JavaScript's value model the order-summary script relies on:
 * truthiness, `||`, property lookup, `Number(...)`, and what `JSON.stringify`
 * does to a field that is `undefined` or NaN.
 */
module JsValues {
  import opened Wrappers
  import StringNumeric

  /** A double as the script sees it: a finite value or NaN, held as an
      exact real. Catalogue and add-on prices are integers, for which real
      and double arithmetic agree; a stored price outside the catalogue may
      be a fraction, which a double would round. Infinities are not
      modelled. */
  datatype Number = Finite(r: real) | NaN

  datatype Value =
    | Undefined
    | Null
    | Bool(b: bool)
    | Num(n: Number)
    | Str(s: string)
    | Arr(items: seq<Value>)
    | Obj(fields: map<string, Value>)

  /** A value `JSON.parse` can return: no `undefined` and no NaN anywhere in it. */
  predicate IsJson(v: Value) {
    match v
    case Undefined => false
    case Num(n) => n.Finite?
    case Arr(items) => forall i :: 0 <= i < |items| ==> IsJson(items[i])
    case Obj(fields) => forall k :: k in fields ==> IsJson(fields[k])
    case _ => true
  }

  predicate Truthy(v: Value) {
    match v
    case Undefined => false
    case Null => false
    case Bool(b) => b
    case Num(n) => n.Finite? && n.r != 0.0
    case Str(s) => s != ""
    case Arr(_) => true
    case Obj(_) => true
  }

  /** `a || b` */
  function Or(a: Value, b: Value): Value {
    if Truthy(a) then a else b
  }

  /** `v.name`, and also `v?.name`, for a name that no built-in prototype
      defines: an own field of an object, `undefined` for anything else. */
  function Get(v: Value, name: string): Value {
    if v.Obj? && name in v.fields then v.fields[name] else Undefined
  }

  /** Whether `{ ...v }` copies a field called `name`. */
  predicate HasOwn(v: Value, name: string) {
    v.Obj? && name in v.fields
  }

  /** The names an object literal inherits from `Object.prototype`
      (ECMAScript 2023, section 20.1.3 and Annex B.2.2): `o[k]` finds a
      built-in function or object under each of them. */
  const ObjectPrototypeNames: set<string> :=
    {"constructor", "hasOwnProperty", "isPrototypeOf", "propertyIsEnumerable",
     "toLocaleString", "toString", "valueOf", "__proto__",
     "__defineGetter__", "__defineSetter__", "__lookupGetter__", "__lookupSetter__"}

  /** The property name `o[v]` looks up, when it may be a name some table of the
      script holds: a string, or an array of one element (arrays convert by
      `join`). None stands for the text of a number, a boolean, `null`, an
      object or an array of several elements (which holds a comma): no such
      text is a table key or an `Object.prototype` name. */
  function KeyText(v: Value): Option<string> {
    match v
    case Str(s) => Some(s)
    case Arr(items) =>
      if |items| == 0 then Some("")
      else if |items| == 1 then
        (if items[0].Null? || items[0].Undefined? then Some("") else KeyText(items[0]))
      else None
    case _ => None
  }

  /** Whether converting `v` to a primitive throws a TypeError
      (OrdinaryToPrimitive, ECMAScript 2023, section 7.1.1.1), as `o[v]`,
      `Number(v)` and a template literal holding `v` all do. JSON holds no
      functions, so an object with an own `toString` has one that cannot be
      called, and the `valueOf` it inherits returns the object itself: no
      primitive is found. An array converts through `Array.prototype.join`,
      which converts each element that is not null or undefined in the same
      way. */
  predicate PrimitiveThrows(v: Value) {
    match v
    case Obj(fields) => "toString" in fields
    case Arr(items) => exists i :: 0 <= i < |items| && PrimitiveThrows(items[i])
    case _ => false
  }

  /** `Number(s)` for a string (ECMAScript 2023, section 7.1.4.1.1): white
      space alone is 0, a string of decimal digits is its value, and the
      rest is read as a StrNumericLiteral or is NaN. */
  function StringToNumber(s: string): (r: Number)
    ensures StringNumeric.AllWhiteSpace(s) ==> r == Finite(0.0)
    ensures s != [] && StringNumeric.AllDigits(s, 10) ==> r == Finite(StringNumeric.DigitsValue(s, 10) as real)
  {
    match StringNumeric.Parse(s)
    case Some(x) => Finite(x)
    case None => NaN
  }

  /** `Number(v)` */
  function ToNumber(v: Value): Number {
    match v
    case Undefined => NaN
    case Null => Finite(0.0)
    case Bool(b) => Finite(if b then 1.0 else 0.0)
    case Num(n) => n
    case Str(s) => StringToNumber(s)
    case _ => NaN
  }

  /** `a + b` on numbers: NaN absorbs. */
  function Add(a: Number, b: Number): Number {
    if a.NaN? || b.NaN? then NaN else Finite(a.r + b.r)
  }

  /** One field as `JSON.stringify` writes it: NaN becomes `null`. */
  function JsonField(v: Value): Value {
    if v == Num(NaN) then Null else v
  }

  /** `JSON.stringify` of a flat object: fields holding `undefined` are
      dropped and NaN becomes `null`. Only the top level is rewritten, so a
      field's own contents must already be JSON (`Storable`). */
  function Stringified(fields: map<string, Value>): Value {
    Obj(map k | k in fields && fields[k] != Undefined :: JsonField(fields[k]))
  }

  /** A plan field as `saveMembership` can hold it: JSON, or `undefined` or
      NaN at the top, which `JsonField` and `Stringified` deal with. */
  predicate Storable(v: Value) {
    v == Undefined || v == Num(NaN) || IsJson(v)
  }

  lemma JsonFieldOf(v: Value, name: string)
    requires IsJson(v) && HasOwn(v, name)
    ensures IsJson(Get(v, name)) && Get(v, name) != Undefined && Get(v, name) != Num(NaN)
  {
  }
}
