/** The slice of JavaScript value semantics that the checkout backend's
    decisions depend on: parsed JSON request bodies, property reads with and
    without optional chaining, truthiness, and the key equality used by `Set`. */
module JsValues {

  /** A JavaScript value as it arrives in a parsed JSON body or comes back
      from a property read. Exact reals stand for the parsed doubles: equality
      on them agrees with SameValueZero (JSON yields no `NaN`, and `0` and
      `-0` are one value), which is all that `Set`, `===` and truthiness use. */
  datatype JsValue =
    | Undefined
    | Null
    | Bool(b: bool)
    | Num(n: real)
    | Str(s: string)
    | Arr(elements: seq<JsValue>)
    | Obj(fields: map<string, JsValue>)

  /** Evaluating an expression either yields a value or throws. */
  datatype Completion<T> = Normal(value: T) | Throw

  /** How an awaited promise settles: `await` yields the fulfilled value or
      throws the rejection reason. */
  datatype Settled = Fulfilled(value: JsValue) | Rejected(reason: JsValue)

  /** `v === null || v === undefined` */
  predicate IsNullish(v: JsValue) {
    v.Undefined? || v.Null?
  }

  /** Whether `if (v)` takes the branch: `undefined`, `null`, `false`, `0`
      and `""` are falsy, every object and array is truthy. */
  predicate Truthy(v: JsValue) {
    match v
    case Undefined => false
    case Null => false
    case Bool(b) => b
    case Num(x) => x != 0.0
    case Str(s) => s != ""
    case Arr(_) => true
    case Obj(_) => true
  }

  /** Arrays and objects are compared by reference, everything else by value. */
  predicate IsPrimitive(v: JsValue) {
    !v.Arr? && !v.Obj?
  }

  /** `v?.[key]`: the own property `key` of an object, and `undefined` for a
      missing key, for a primitive and for `null`/`undefined` alike. The
      keys read this way (`data`, `id`, `status`, `body`, `items`, `title`,
      `quantity`, `price`, `response`) are defined by no built-in prototype;
      the `toString`/`valueOf` lookups of a conversion are `NumberThrows`. */
  function Get(v: JsValue, key: string): JsValue {
    if v.Obj? && key in v.fields then v.fields[key] else Undefined
  }

  /** `v.key` without optional chaining: reading a property of `null` or
      `undefined` throws a `TypeError`. */
  function Read(v: JsValue, key: string): Completion<JsValue> {
    if IsNullish(v) then Throw else Normal(Get(v, key))
  }

  /** `s.has(v)` for a `Set` filled from earlier requests. `Set` compares
      keys with SameValueZero: a primitive matches an equal primitive, while
      an array or object matches only the very same reference, and the one in
      the current request body was freshly parsed, so it matches nothing. */
  predicate SetHas(s: set<JsValue>, v: JsValue) {
    IsPrimitive(v) && v in s
  }

  /** Whether `Number(v)` throws. A primitive converts without throwing. An
      object parsed from JSON inherits `valueOf`, which returns the object
      itself, so the conversion falls through to `toString`: the inherited one
      yields "[object Object]", but an own `toString` key holds a JSON value,
      which is not callable, and then no method yields a primitive and a
      `TypeError` is thrown. An array converts through `join`, which converts
      each element to a string the same way (an element object with an own
      `toString` again has no callable method left). */
  predicate NumberThrows(v: JsValue)
    decreases v
  {
    match v
    case Obj(fields) => "toString" in fields
    case Arr(elements) => exists e :: e in elements && NumberThrows(e)
    case _ => false
  }
}
