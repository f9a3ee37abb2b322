# GeeRPC service registry, modelled in Dafny

This project models the dispatch core of the GeeRPC remote-procedure-call
runtime: the service registry of `service.go`. A receiver object is turned
into a `service`, which holds the receiver, its type name and a map from
method names to `methodType` descriptors. Only the methods that can be
called remotely go into that map. A descriptor makes fresh argument and reply
values for its method and counts how often `call` has invoked it.

Files:

- `reflect.dfy` (module `Reflect`): a small stand-in for Go reflection.
  - A type descriptor has a name, a package path and a kind. The kinds are
    `Ptr`, `Map` and `Slice`, each with its element type, plus `Interface`
    and `Other`.
  - `ErrorType` is the predeclared `error` interface.
  - Values are modelled abstractly: zero values, non-nil pointers to a
    variable, non-nil maps and slices, and opaque values.
  - A `Method` has a name, its input types (the receiver at index 0), its
    output types, and a closure standing for `Func.Call`.
  - `IsExported` is an ASCII approximation of `ast.IsExported`.
- `service.dfy` (module `Service`):
  - the classes `MethodType` and `Service`, with the fields the Go structs
    have;
  - the acceptance filter (`IsExportedOrBuiltinType`, `Qualifies`);
  - `Registry`, a specification function giving the map that
    `registerMethods` builds;
  - the 64-bit call counter and the lemmas.

`RegisterMethods` is an imperative loop over the method table. It is proved
to leave the map equal, as values, to `Registry(methodSet)`. It also stores a
fresh, distinct descriptor under each key. `NewService` returns a `Result`
where Go calls `log.Fatalf`. `Call` mutates the descriptor's counter in place.

Two consequences of the code as written:

- The filter accepts every unnamed type, because unnamed types have an empty
  package path. So `*unexportedType` passes (`PointerTypeQualifies`).
- Registration does not check that the reply type is a pointer. So a method
  with an `int` reply is registered, and `newReplyv` then panics on `Elem()`
  for it (`RegisteredValueReplyPanics`).

## Model

| member | source | states |
|---|---|---|
| `Service.AddOne` | service.go:101 | the atomic increment adds exactly one to a 64-bit counter below the maximum and wraps the maximum to 0 |
| `Service.AfterCallsAdds` | service.go:100-101 | after `n` calls the counter has grown by `n` modulo 2^64 |
| `Service.CountFromZero` | service.go:14 | a fresh counter (zero value) reads exactly `n` after `n` calls while it does not wrap |
| `Service.IsExportedOrBuiltinType` | service.go:95-97 | a type with an empty package path (predeclared or unnamed) always passes; a type declared in a package passes iff its name is exported |
| `Service.PointerTypeQualifies` | service.go:95-97 | every unnamed pointer type passes `isExportedOrBuiltinType`, whatever it points to |
| `Service.Qualifies` | service.go:75-85 | a method passes the checks iff it has exactly 3 inputs counting the receiver, its only output is `error`, and inputs 1 and 2 both pass `isExportedOrBuiltinType` |
| `Service.Registry` | service.go:70-93 | the map the loop builds, scanning the table in order and storing a descriptor under the name of each method that passes the checks; it holds at most one descriptor per method of the table (keys and entries: `RegistryKeys`, `RegistryEntries`) |
| `Service.RegistryEntries` | service.go:70-93 | every entry of the built map sits under its own method's name, belongs to a method passing all the checks, has `ArgType == In(1)`, `ReplyType == In(2)` and a zero counter |
| `Service.RegistryKeys` | service.go:72-90 | a name is a key of the built map iff some method of the table with that name has 3 inputs, 1 output equal to `error`, and exported-or-builtin inputs 1 and 2; all other methods are left out |
| `Service.RegistryEntry` | service.go:81-90 | with distinct method names, each qualifying method is stored under its name with exactly its own method, argument and reply types and counter 0 |
| `Service.RegistryExample` | service.go:72-90 | for a table with one good method, one (`Bad`) with an unexported argument type and one with two outputs, only the good method is registered, with its argument and reply types |
| `Service.RegisteredValueReplyPanics` | service.go:38-39 | a registered method whose reply type has no element type makes `newReplyv` panic |
| `Service.MethodType.constructor` | service.go:86-90 | a new descriptor holds the method, argument and reply types given and a zero counter |
| `Service.MethodType.NumCalls` | service.go:17-20 | returns the descriptor's current call count |
| `Service.MethodType.NewArgv` | service.go:22-36 | for a pointer argument type, a non-nil pointer to a zero value of the element type; otherwise the zero value of the argument type itself, not a pointer; the value has the argument type when that type is unnamed or not a pointer |
| `Service.MethodType.NewReplyv` | service.go:38-47 | fails with a panic iff the reply type has no element type; otherwise a well-typed non-nil pointer to the element type, whose target is an empty non-nil map for a map element, an empty non-nil slice of length and capacity 0 for a slice element, and the zero value otherwise |
| `Reflect.Indirect` | service.go:59 | a non-nil pointer gives exactly its target, which has the element type; a value that is not a pointer is returned unchanged |
| `Reflect.IndirectType` | service.go:59 | panics iff the receiver is a nil pointer; otherwise the pointee's type for a pointer and the value's own type for anything else |
| `Service.Service.constructor` | service.go:57-60 | the service holds the receiver, its name, its type and method table, and an empty map |
| `Service.Service.NewService` | service.go:56-68 | a nil pointer receiver panics; otherwise it fails with the fatal message iff the dereferenced type name is not exported; on success the service is fresh, is named after that type, holds the receiver and its type, and its map equals `Registry` of the method table, with fresh distinct descriptors |
| `Service.Service.RegisterMethods` | service.go:70-93 | starts from an empty map and leaves it equal to `Registry` of the method table, with fresh distinct descriptors; since `Registry` depends on the table only, running it twice gives the same map with all counters at 0 |
| `Service.Service.Call` | service.go:99-108 | the called descriptor's counter goes up by exactly one (64-bit wrap) whether the method fails or not; no other descriptor's counter and not the map change; the error returned is the invoked method's own error value, nil exactly when the method returned nil; the reply is the one the method left |

## Left out

- `codec/gob.go` is not part of this model. `GobCodec` only forwards to `encoding/gob`, `bufio` and the connection, and its work is stream I/O.
- Reflection itself is not modelled. `Func.Call` is a closure stored in each `Method`. `reflect.New`, `MakeMap` and `MakeSlice` give abstract values.
- Values have no identity. The model cannot say that two allocations are distinct objects, nor that `reflect.New(T).Elem()` is addressable.
- `Service.Service.Call`: the method mutates the reply in place; here the closure returns the updated reply and `Call` hands it back.
- `Service.Service.Call`: the invoked method is a total, pure closure. So a panic of `Func.Call` on mismatched arguments is not modelled. Neither is a panic inside the method itself, after which Go has already bumped the counter and the panic leaves `call`. The method's effects on the receiver are not modelled either.
- `call` does not check that the descriptor belongs to the service, and neither does the model.
- Atomicity of `atomic.AddUint64` and `atomic.LoadUint64` is not modelled: the counter is a plain field updated one call at a time.
- The `log.Printf` diagnostic for each registered method is dropped. `log.Fatalf` becomes a `Fatal` failure carrying the same message.
- `Reflect.IsExported`: ASCII upper-case letters only, not Unicode's `IsUpper`.
- Array, channel and function types cannot be represented. Arrays and channels have `Elem()` in Go, so `newReplyv` does not panic for them; they are not the `Other` kind.
- A nil interface receiver and named pointer types with their own methods are not distinguished.
- `Reflect.Indirect`: a nil pointer is returned unchanged, where Go gives the invalid zero `reflect.Value`. `Reflect.IndirectType` does model the panic that follows.
- The method table `methodSet` is a parameter of `NewService`, not derived from the receiver's type. Go's `Type.Method` lists only exported methods, sorted by name, so the names are distinct; `Service.RegistryEntry` requires that distinctness, and the other members do not need it.
- Type identity is structural equality of descriptors, not Go's identity of `reflect.Type` values.
- Lookup of a method by name and the server that drives `call` live in other files and are not part of this model.
