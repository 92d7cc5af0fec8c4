/** JavaScript values as ng-mocks sees them.

    Angular classes and tokens are opaque: a class is known by its identity,
    its name, the kind of Angular declaration it is and, for a mock, the
    declaration it mocks. Objects carry an identity too, so that two
    distinct objects with equal fields stay distinct (`===` on objects is
    reference equality). Arrays are compared by contents. */
module JsValues {

  datatype Option<+T> = None | Some(value: T)

  datatype Result<+T, +E> = Ok(value: T) | Err(error: E)

  /** The kind of Angular declaration a class is decorated as. */
  datatype Kind = NgModule | Component | Directive | Pipe | Injectable | PlainClass

  datatype Value =
    | Undefined
    | Null
    | Bool(b: bool)
    | Num(n: int)
    | Str(s: string)
      /** a class; `mockOf` is the declaration this class is a mock of */
    | Class(id: nat, name: string, kind: Kind, mockOf: Option<Value>)
      /** any other function, e.g. a callback */
    | Fn(id: nat, name: string)
      /** the function `forwardRef(() => target)` builds (it has `__forward_ref__`) */
    | ForwardRef(id: nat, target: Value)
      /** an `InjectionToken` instance */
    | Token(id: nat, name: string)
    | Arr(items: seq<Value>)
    | Obj(id: nat, fields: map<string, Value>)

  /** JavaScript's truthiness: the falsy values are undefined, null, false, 0 and "". */
  predicate Truthy(v: Value) {
    match v
    case Undefined => false
    case Null => false
    case Bool(b) => b
    case Num(n) => n != 0
    case Str(s) => s != ""
    case _ => true
  }

  /** The `typeof` operator. */
  function TypeOf(v: Value): string {
    match v
    case Undefined => "undefined"
    case Bool(_) => "boolean"
    case Num(_) => "number"
    case Str(_) => "string"
    case Class(_, _, _, _) => "function"
    case Fn(_, _) => "function"
    case ForwardRef(_, _) => "function"
    case _ => "object"
  }

  /** Reading property `key` of a value that is not null or undefined;
      only plain objects carry properties in this model. */
  function Get(v: Value, key: string): Value {
    if v.Obj? && key in v.fields then v.fields[key] else Undefined
  }

  /** `Map.prototype.get`: undefined for a missing key. */
  function Lookup<K>(m: map<K, Value>, k: K): Value {
    if k in m then m[k] else Undefined
  }

  /** Is the value an Angular class of kind `k` (ng-mocks' `isNgDef(v, k)`)? */
  predicate IsNgDefOf(v: Value, k: Kind) {
    v.Class? && v.kind == k
  }

  /** Is the value a mock of kind `k` (ng-mocks' `isMockNgDef(v, k)`)? */
  predicate IsMockNgDefOf(v: Value, k: Kind) {
    v.Class? && v.kind == k && v.mockOf.Some?
  }

  /** Decimal rendering of an integer. */
  function IntToString(n: int): string
    decreases if n < 0 then 1 - n else n
  {
    if n < 0 then "-" + IntToString(-n)
    else if n < 10 then [(48 + n) as char]
    else IntToString(n / 10) + [(48 + n % 10) as char]
  }

  /** `String(v)`, as a template literal renders a value. A function renders
      by its name here (an engine prints its source text). */
  function ToJsString(v: Value): string
    decreases v, 1
  {
    match v
    case Undefined => "undefined"
    case Null => "null"
    case Bool(b) => if b then "true" else "false"
    case Num(n) => IntToString(n)
    case Str(s) => s
    case Class(_, name, _, _) => name
    case Fn(_, name) => name
    case ForwardRef(_, _) => "forwardRef"
    case Token(_, name) => "InjectionToken " + name
    case Arr(items) => JoinValues(items, ",")
    case Obj(_, _) => "[object Object]"
  }

  /** `Array.prototype.join`: undefined and null entries render as "". */
  function JoinValues(items: seq<Value>, sep: string): string
    decreases items, 0
  {
    if items == [] then ""
    else
      var head := if items[0].Undefined? || items[0].Null? then "" else ToJsString(items[0]);
      if |items| == 1 then head else head + sep + JoinValues(items[1..], sep)
  }

  /** The `name` of a function value; an inline arrow function, as the one
      `forwardRef` wraps, has the empty name. */
  function FunctionName(v: Value): string
    requires TypeOf(v) == "function"
  {
    match v
    case Class(_, name, _, _) => name
    case Fn(_, name) => name
    case ForwardRef(_, _) => ""
  }

  /** The spread `[...v]`: an array gives its items, a string its characters;
      any other value is not iterable and the spread throws a TypeError
      (`None`). */
  function Spread(v: Value): (r: Option<seq<Value>>)
    ensures v.Arr? ==> r == Some(v.items)
    ensures v.Str? ==> r.Some? && |r.value| == |v.s| && forall i :: 0 <= i < |v.s| ==> r.value[i] == Str([v.s[i]])
    ensures !v.Arr? && !v.Str? ==> r.None?
  {
    match v
    case Arr(items) => Some(items)
    case Str(s) => Some(seq(|s|, i requires 0 <= i < |s| => Str([s[i]])))
    case _ => None
  }
}
