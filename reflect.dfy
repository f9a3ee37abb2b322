/** A small stand-in for the parts of Go's `reflect` and `go/ast` packages
    that the service registry relies on: type descriptors, method signatures,
    the predeclared `error` interface, run-time values as far as the registry
    allocates and inspects them, and the "exported identifier" check. */
module Reflect {

  datatype Option<+T> = None | Some(value: T)

  /** Why an operation did not produce a value: a `log.Fatalf` that ends the
      process, or a run-time panic raised inside the reflection library. */
  datatype Failure = Fatal(message: string) | Panic(reason: string)

  datatype Result<+T> = Ok(value: T) | Fail(failure: Failure)

  /** The kind of a type. Kinds that have an element type (`Type.Elem()` in
      Go) carry it; `Interface` and `Other` have none. `Other` stands for
      structs, numbers, strings and booleans. Array and channel types, which
      have an element type in Go, and function types cannot be represented. */
  datatype Kind =
    | Ptr(elem: Type)
    | Map(key: Type, elem: Type)
    | Slice(elem: Type)
    | Interface
    | Other

  /** A type descriptor: `Name()`, `PkgPath()` and `Kind()`. Unnamed types
      (pointer, map and slice literals such as `*Args`) have an empty name
      and an empty package path, as do the predeclared types. */
  datatype Type = Type(name: string, pkgPath: string, kind: Kind)

  /** `reflect.TypeOf((*error)(nil)).Elem()`: the predeclared `error` interface. */
  const ErrorType: Type := Type("error", "", Interface)

  /** The unnamed type `*elem`. */
  function PointerTo(elem: Type): Type {
    Type("", "", Ptr(elem))
  }

  /** Whether `t.Elem()` is defined; Go panics on the other kinds. */
  predicate HasElem(t: Type) {
    t.kind.Ptr? || t.kind.Map? || t.kind.Slice?
  }

  /** Whether the zero value of `t` is `nil`. */
  predicate Nilable(t: Type) {
    t.kind.Ptr? || t.kind.Map? || t.kind.Slice? || t.kind.Interface?
  }

  /** `ast.IsExported`: the identifier starts with an upper-case letter.
      This is an ASCII approximation of Go's `unicode.IsUpper` applied to the
      first rune; the empty identifier is not exported. */
  predicate IsExported(name: string) {
    |name| > 0 && 'A' <= name[0] <= 'Z'
  }

  /** A run-time value, abstractly. */
  datatype Value =
    | Zero(typ: Type)                          // the zero value of typ: nil for nilable types
    | Pointer(elem: Type, target: Value)       // a non-nil pointer to a fresh variable of type elem
    | MapValue(typ: Type, size: nat)           // a non-nil map holding size entries
    | SliceValue(typ: Type, len: nat, cap: nat) // a non-nil slice
    | Opaque(typ: Type, id: nat)               // some other value the registry does not look into

  function TypeOf(v: Value): Type {
    match v
    case Zero(t) => t
    case Pointer(e, _) => PointerTo(e)
    case MapValue(t, _) => t
    case SliceValue(t, _, _) => t
    case Opaque(t, _) => t
  }

  /** The value agrees with its type: a pointer's target has the element
      type, maps and slices have map and slice types. */
  predicate WellTyped(v: Value) {
    match v
    case Zero(_) => true
    case Pointer(e, x) => TypeOf(x) == e && WellTyped(x)
    case MapValue(t, _) => t.kind.Map?
    case SliceValue(t, n, c) => t.kind.Slice? && n <= c
    case Opaque(t, _) => t.kind.Other?
  }

  /** `v.IsNil()` for nilable values; false for every other value. */
  predicate IsNil(v: Value) {
    v.Zero? && Nilable(v.typ)
  }

  /** `v.Len()` of a map or a slice; nil maps and slices have length 0. */
  function Length(v: Value): nat {
    match v
    case MapValue(_, n) => n
    case SliceValue(_, n, _) => n
    case _ => 0
  }

  /** `v.Cap()` of a slice; a nil slice has capacity 0. */
  function Capacity(v: Value): nat {
    if v.SliceValue? then v.cap else 0
  }

  /** `reflect.Indirect(v)` as a value: the variable a non-nil pointer
      points to, and any value that is not a pointer itself. A nil pointer
      is returned unchanged here; Go gives the invalid zero `reflect.Value`. */
  function Indirect(v: Value): (r: Value)
    ensures v.Pointer? ==> r == v.target
    ensures WellTyped(v) ==> WellTyped(r)
    ensures WellTyped(v) && v.Pointer? ==> TypeOf(r) == v.elem
    ensures !v.Pointer? ==> r == v
  {
    if v.Pointer? then v.target else v
  }

  /** `reflect.Indirect(v).Type()`. For a nil pointer `Indirect` gives the
      invalid zero `reflect.Value`, whose `Type()` panics. */
  function IndirectType(v: Value): (r: Result<Type>)
    ensures r.Fail? <==> IsNil(v) && TypeOf(v).kind.Ptr?
    ensures r.Ok? && TypeOf(v).kind.Ptr? && WellTyped(v) ==> r.value == TypeOf(v).kind.elem
    ensures r.Ok? && !TypeOf(v).kind.Ptr? ==> r.value == TypeOf(v)
  {
    match v
    case Pointer(e, _) => Ok(e)
    case Zero(t) => if t.kind.Ptr? then Fail(Panic("reflect: call of reflect.Value.Type on zero Value")) else Ok(t)
    case _ => Ok(TypeOf(v))
  }

  /** The value an `error` result carries when it is not nil. */
  datatype Error = Error(message: string)

  /** What invoking a method gives back: the reply variable as the method
      left it, and the method's one `error` result (`None` is nil). */
  datatype Returned = Returned(reply: Value, err: Option<Error>)

  /** A `reflect.Method`: its name, its signature (`Type.In(i)` with the
      receiver at index 0, `Type.Out(i)`) and `Func.Call` on a receiver, an
      argument and a reply. */
  datatype Method = Method(
    name: string,
    ins: seq<Type>,
    outs: seq<Type>,
    fn: (Value, Value, Value) -> Returned)
}
