/**
 * JavaScript values as the authentication page sees them: form values, server
 * response bodies and the few library operations the page applies to them
 * (property access, lodash `get` and lodash `omit`).
 */
module JsValues {

  /** A JSON-like JavaScript value. Numbers are integers here (the page only
      ever reads a status code); `Undefined` is a missing property. */
  datatype Value =
    | Undefined
    | Null
    | Bool(b: bool)
    | Num(n: int)
    | Str(s: string)
    | Obj(props: map<string, Value>)

  /** The submitted form values (Formik's `values` object). */
  type Fields = map<string, Value>

  /** A value that may be absent (JavaScript `null`). */
  datatype Option<T> = None | Some(value: T)

  /** The completion of an expression that may throw a `TypeError`. */
  datatype Completion<T> = Normal(value: T) | TypeError

  /** The values JavaScript's ToBoolean maps to `false` (NaN and `-0` aside). */
  const FalsyValues: set<Value> := {Undefined, Null, Bool(false), Num(0), Str("")}

  /** JavaScript truthiness (NaN is not modelled): every value except the
      falsy ones, objects included whatever their contents. */
  predicate Truthy(v: Value)
    ensures Truthy(v) <==> v !in FalsyValues
    ensures v.Obj? ==> Truthy(v)
  {
    match v
    case Undefined => false
    case Null => false
    case Bool(b) => b
    case Num(n) => n != 0
    case Str(s) => s != ""
    case Obj(_) => true
  }

  /** `v.key` in JavaScript: reading a property of `undefined` or `null` throws a
      `TypeError`; every other value yields its own property or `undefined`
      (inherited names and the properties of primitives are not modelled). */
  function Member(v: Value, key: string): (r: Completion<Value>)
    ensures r.TypeError? <==> v.Undefined? || v.Null?
    ensures r.Normal? && r.value != Undefined ==> v.Obj? && key in v.props && r.value == v.props[key]
  {
    match v
    case Undefined => TypeError
    case Null => TypeError
    case Obj(m) => Normal(if key in m then m[key] else Undefined)
    case _ => Normal(Undefined)
  }

  /** `fields.key` on the form values object, which is an object and so never
      throws: a missing key reads as undefined. */
  function Prop(fields: Fields, key: string): Value
  {
    Member(Obj(fields), key).value
  }

  /** The value found by following `path` from `v`, or `undefined` as soon as a
      step leaves the objects (lodash `get` never throws). */
  function Resolve(v: Value, path: seq<string>): Value
    decreases |path|
  {
    if path == [] then v
    else if v.Obj? && path[0] in v.props then Resolve(v.props[path[0]], path[1..])
    else Undefined
  }

  /** lodash `get(v, path, default)`: the default replaces only an `undefined`
      result, so a `null` found on the path is returned as is; an empty path
      takes no step and so finds nothing. */
  function Get(v: Value, path: seq<string>, default: Value): (r: Value)
    // An empty path finds nothing, whatever the value.
    ensures path == [] ==> r == default
    // A non-empty path through anything but an object finds nothing.
    ensures |path| >= 1 && !v.Obj? ==> r == default
    // One step: the own property, when present and defined.
    ensures |path| == 1 ==>
              r == if v.Obj? && path[0] in v.props && v.props[path[0]] != Undefined
                   then v.props[path[0]] else default
    // Two steps: the property of the property, when both are there.
    ensures |path| == 2 ==>
              r == if v.Obj? && path[0] in v.props && v.props[path[0]].Obj? &&
                      path[1] in v.props[path[0]].props &&
                      v.props[path[0]].props[path[1]] != Undefined
                   then v.props[path[0]].props[path[1]] else default
    // Any longer path: the value found by following it, or the default.
    ensures |path| >= 1 && Resolve(v, path) != Undefined ==> r == Resolve(v, path)
    ensures |path| >= 1 && Resolve(v, path) == Undefined ==> r == default
    ensures r == Undefined ==> default == Undefined
  {
    assert |path| == 1 && v.Obj? && path[0] in v.props ==>
             Resolve(v, path) == Resolve(v.props[path[0]], []);
    assert |path| == 2 && v.Obj? && path[0] in v.props ==>
             var w := v.props[path[0]];
             Resolve(v, path) == Resolve(w, path[1..]) &&
             Resolve(w, path[1..]) ==
               (if w.Obj? && path[1] in w.props then Resolve(w.props[path[1]], []) else Undefined);
    var found := if path == [] then Undefined else Resolve(v, path);
    if found == Undefined then default else found
  }

  /** lodash `omit(fields, keys)` on top-level keys: a copy without those keys. */
  function Omit(fields: Fields, keys: set<string>): (r: Fields)
    ensures forall k :: k in r <==> k in fields && k !in keys
    ensures forall k :: k in r ==> r[k] == fields[k]
  {
    fields - keys
  }
}
