/** The service registry of `service.go`: method descriptors with their
    value factories and call counters, the filter that decides which methods
    of a receiver can be called remotely, the registry built from a
    receiver's method table, and dispatch. */
module Service {
  import opened Reflect

  newtype uint64 = x: int | 0 <= x < 0x1_0000_0000_0000_0000

  const MaxUint64: uint64 := 0xFFFF_FFFF_FFFF_FFFF

  /** 2^64, the modulus of unsigned 64-bit arithmetic. */
  const Modulus: int := 0x1_0000_0000_0000_0000

  /** `atomic.AddUint64(&c, 1)` as a sequential step: unsigned 64-bit
      arithmetic wraps around to 0. */
  function AddOne(c: uint64): (r: uint64)
    ensures r as int == (c as int + 1) % Modulus
    ensures c < MaxUint64 ==> r as int == c as int + 1
    ensures c == MaxUint64 ==> r == 0
  {
    if c == MaxUint64 then 0 else c + 1
  }

  /** The counter after `n` calls starting from `c`. */
  function AfterCalls(c: uint64, n: nat): uint64 {
    if n == 0 then c else AddOne(AfterCalls(c, n - 1))
  }

  /** `n` calls add exactly `n` to the counter, modulo 2^64. */
  lemma {:induction false} AfterCallsAdds(c: uint64, n: nat)
    ensures AfterCalls(c, n) as int == (c as int + n) % Modulus
  {
    if n > 0 {
      AfterCallsAdds(c, n - 1);
      ModStep(c as int + n - 1, AfterCalls(c, n - 1) as int);
    }
  }

  /** Adding one to a number adds one to its remainder modulo 2^64, or
      wraps it to 0. */
  lemma ModStep(a: nat, y: int)
    requires y == a % Modulus
    ensures (a + 1) % Modulus == if y == Modulus - 1 then 0 else y + 1
  {
  }

  /** A counter that starts at 0 reads `n` after `n` calls, as long as it
      does not wrap. */
  lemma CountFromZero(n: nat)
    requires n < Modulus
    ensures AfterCalls(0, n) as int == n
  {
    AfterCallsAdds(0, n);
  }

  /** `isExportedOrBuiltinType`: a parameter type is acceptable when its name
      is exported or it has no package path (predeclared and unnamed types).
      A type declared in a package is acceptable exactly when its name is
      exported. */
  function IsExportedOrBuiltinType(t: Type): (r: bool)
    ensures t.pkgPath == "" ==> r
    ensures t.pkgPath != "" ==> (r <==> IsExported(t.name))
  {
    IsExported(t.name) || t.pkgPath == ""
  }

  /** Unnamed pointer types always qualify, whatever they point to: the
      filter does not look through `*T` to `T`. */
  lemma PointerTypeQualifies(elem: Type)
    ensures IsExportedOrBuiltinType(PointerTo(elem))
  {
  }

  /** The checks of `registerMethods`: three inputs counting the receiver,
      one output of type `error`, and argument and reply types that are
      exported or built in. */
  function Qualifies(m: Method): (r: bool)
    ensures r <==> |m.ins| == 3 && m.outs == [ErrorType] &&
                   IsExportedOrBuiltinType(m.ins[1]) && IsExportedOrBuiltinType(m.ins[2])
  {
    && |m.ins| == 3
    && |m.outs| == 1
    && m.outs[0] == ErrorType
    && IsExportedOrBuiltinType(m.ins[1])
    && IsExportedOrBuiltinType(m.ins[2])
  }

  /** The state of one `methodType`, as a value. */
  datatype Descriptor = Descriptor(meth: Method, argType: Type, replyType: Type, numCalls: uint64)

  /** The descriptor `registerMethods` makes for a qualifying method. */
  function NewDescriptor(m: Method): (d: Descriptor)
    requires Qualifies(m)
  {
    Descriptor(m, m.ins[1], m.ins[2], 0)
  }

  /** A descriptor as `registerMethods` leaves it under key `k`. */
  ghost predicate Registered(k: string, d: Descriptor) {
    && d.meth.name == k
    && Qualifies(d.meth)
    && d.argType == d.meth.ins[1]
    && d.replyType == d.meth.ins[2]
    && d.numCalls == 0
  }

  /** The name-to-descriptor map that `registerMethods` builds from a method
      table, scanning it in order; a later method of the same name replaces
      an earlier one. It never holds more descriptors than the table has
      methods. */
  function Registry(ms: seq<Method>): (r: map<string, Descriptor>)
    ensures |r| <= |ms|
  {
    if ms == [] then map[]
    else
      var prev := Registry(ms[..|ms| - 1]);
      var m := ms[|ms| - 1];
      if Qualifies(m) then prev[m.name := NewDescriptor(m)] else prev
  }

  /** Every entry of the registry sits under its own method's name, belongs
      to a method that passes the checks, holds that method's second and
      third inputs as argument and reply types, and has a zero counter. */
  lemma {:induction false} RegistryEntries(ms: seq<Method>)
    ensures forall k :: k in Registry(ms) ==> Registered(k, Registry(ms)[k])
  {
    if ms != [] {
      RegistryEntries(ms[..|ms| - 1]);
    }
  }

  /** Scanning one more method of the table. */
  lemma RegistrySnoc(ms: seq<Method>, i: nat)
    requires i < |ms|
    ensures Registry(ms[..i + 1]) ==
            if Qualifies(ms[i]) then Registry(ms[..i])[ms[i].name := NewDescriptor(ms[i])] else Registry(ms[..i])
  {
    assert ms[..i + 1][..i] == ms[..i];
  }

  /** A name is a key of the registry iff some method of that name passes
      the checks; every other method is left out. */
  lemma {:induction false} RegistryKeys(ms: seq<Method>, k: string)
    ensures k in Registry(ms) <==> exists i :: 0 <= i < |ms| && ms[i].name == k && Qualifies(ms[i])
  {
    if ms != [] {
      var init := ms[..|ms| - 1];
      RegistryKeys(init, k);
      if k in Registry(init) {
        var i :| 0 <= i < |init| && init[i].name == k && Qualifies(init[i]);
        assert ms[i] == init[i];
      }
      if exists i :: 0 <= i < |ms| && ms[i].name == k && Qualifies(ms[i]) {
        var i :| 0 <= i < |ms| && ms[i].name == k && Qualifies(ms[i]);
        if i < |init| {
          assert init[i] == ms[i];
        }
      }
    }
  }

  /** With distinct method names (as in a Go method set), each qualifying
      method is stored under its own name with its own argument and reply
      types and a zero counter. */
  lemma {:induction false} RegistryEntry(ms: seq<Method>, i: nat)
    requires forall a, b :: 0 <= a < b < |ms| ==> ms[a].name != ms[b].name
    requires i < |ms| && Qualifies(ms[i])
    ensures ms[i].name in Registry(ms)
    ensures Registry(ms)[ms[i].name] == Descriptor(ms[i], ms[i].ins[1], ms[i].ins[2], 0)
  {
    var init := ms[..|ms| - 1];
    if i < |ms| - 1 {
      assert init[i] == ms[i];
      RegistryEntry(init, i);
      assert ms[|ms| - 1].name != ms[i].name;
    }
  }

  /** A receiver type `Arith` with `Sum(Args, *int) error`, an unexported
      argument type in `Bad(args, *int) error`, and `Two(Args) (int, error)`:
      only `Sum` is registered, with `Args` and `*int` as its types. */
  lemma {:induction false} RegistryExample(fn: (Value, Value, Value) -> Returned)
    ensures var recv := Type("Arith", "main", Other);
            var args := Type("Args", "main", Other);
            var intPtr := PointerTo(Type("int", "", Other));
            var ms := [Method("Sum", [recv, args, intPtr], [ErrorType], fn),
                       Method("Bad", [recv, Type("args", "main", Other), intPtr], [ErrorType], fn),
                       Method("Two", [recv, args], [Type("int", "", Other), ErrorType], fn)];
            Registry(ms).Keys == {"Sum"} && Registry(ms)["Sum"].argType == args && Registry(ms)["Sum"].replyType == intPtr
  {
    var recv := Type("Arith", "main", Other);
    var args := Type("Args", "main", Other);
    var intPtr := PointerTo(Type("int", "", Other));
    var ms := [Method("Sum", [recv, args, intPtr], [ErrorType], fn),
               Method("Bad", [recv, Type("args", "main", Other), intPtr], [ErrorType], fn),
               Method("Two", [recv, args], [Type("int", "", Other), ErrorType], fn)];
    assert ms[..1][..0] == [];
    assert Registry(ms[..1]) == map["Sum" := NewDescriptor(ms[0])];
    assert ms[..2][..1] == ms[..1] && !Qualifies(ms[1]);
    assert Registry(ms[..2]) == Registry(ms[..1]);
    assert ms[..|ms| - 1] == ms[..2] && !Qualifies(ms[2]);
    assert Registry(ms) == Registry(ms[..2]);
  }

  /** A `methodType`: the registered `reflect.Method`, the argument and
      reply types fixed at registration, and the number of calls so far. */
  class MethodType {
    const meth: Method
    const ArgType: Type
    const ReplyType: Type
    var numCalls: uint64

    /** The `&methodType{...}` literal of `registerMethods`; `numCalls`
        starts at its zero value. */
    constructor (meth: Method, argType: Type, replyType: Type)
      ensures this.meth == meth && ArgType == argType && ReplyType == replyType
      ensures numCalls == 0
    {
      this.meth := meth;
      ArgType := argType;
      ReplyType := replyType;
      numCalls := 0;
    }

    ghost function View(): Descriptor
      reads this
    {
      Descriptor(meth, ArgType, ReplyType, numCalls)
    }

    /** `NumCalls`: the number of calls so far (an atomic load in Go). */
    method NumCalls() returns (n: uint64)
      ensures n == numCalls
    {
      n := numCalls;
    }

    /** `newArgv`: a value a decoder can fill for the argument. For a
        pointer argument type it is a fresh non-nil pointer to the zero value
        of the element type; otherwise it is the zero value of the argument
        type itself, not a pointer. */
    function NewArgv(): (v: Value)
      ensures WellTyped(v)
      ensures v.Pointer? <==> ArgType.kind.Ptr?
      ensures v.Pointer? ==> v.elem == ArgType.kind.elem
      ensures Indirect(v).Zero?
      ensures TypeOf(Indirect(v)) == if ArgType.kind.Ptr? then ArgType.kind.elem else ArgType
      ensures ArgType.kind.Ptr? && ArgType.name == "" && ArgType.pkgPath == "" ==> TypeOf(v) == ArgType
      ensures !ArgType.kind.Ptr? ==> TypeOf(v) == ArgType
    {
      if ArgType.kind.Ptr? then
        Pointer(ArgType.kind.elem, Zero(ArgType.kind.elem))
      else
        Zero(ArgType)
    }

    /** `newReplyv`: a fresh pointer to a variable of the reply type's
        element type. A map element is an empty non-nil map, a slice
        element an empty non-nil slice of capacity 0, anything else the zero
        value. When the reply type has no element type, `Elem()` panics. */
    function NewReplyv(): (r: Result<Value>)
      ensures r.Ok? <==> HasElem(ReplyType)
      ensures r.Fail? ==> r.failure.Panic?
      ensures r.Ok? ==> WellTyped(r.value) && r.value.Pointer?
      ensures r.Ok? ==> TypeOf(r.value) == PointerTo(ReplyType.kind.elem)
      ensures r.Ok? && (ReplyType.kind.elem.kind.Map? || ReplyType.kind.elem.kind.Slice?) ==>
                !IsNil(Indirect(r.value)) && Length(Indirect(r.value)) == 0 && Capacity(Indirect(r.value)) == 0
      ensures r.Ok? && !(ReplyType.kind.elem.kind.Map? || ReplyType.kind.elem.kind.Slice?) ==>
                Indirect(r.value).Zero?
    {
      if !HasElem(ReplyType) then
        Fail(Panic("reflect: Elem of invalid type"))
      else
        var e := ReplyType.kind.elem;
        var held := if e.kind.Map? then MapValue(e, 0)
                    else if e.kind.Slice? then SliceValue(e, 0, 0)
                    else Zero(e);
        Ok(Pointer(e, held))
    }
  }

  /** The registry keeps methods whose reply type has no element type (a
      plain `int`, say), and `newReplyv` then panics for them. */
  lemma RegisteredValueReplyPanics(mt: MethodType)
    requires Qualifies(mt.meth) && mt.ReplyType == mt.meth.ins[2]
    requires mt.ReplyType.kind.Other?
    ensures mt.NewReplyv().Fail?
  {
  }

  /** A `service`: the receiver, its type's name and method table, and the
      map of remotely callable methods. `methodSet` stands for
      `typ.Method(0) ... typ.Method(typ.NumMethod() - 1)`; it is given as a
      parameter, not derived from `typ`. Go lists only exported methods
      there, sorted by name, so their names are distinct. */
  class Service {
    const name: string
    const typ: Type
    const rcvr: Value
    const methodSet: seq<Method>
    var methods: map<string, MethodType>

    /** Distinct names hold distinct descriptors. */
    ghost predicate Valid()
      reads this
    {
      forall k1, k2 :: k1 in methods && k2 in methods && k1 != k2 ==> methods[k1] != methods[k2]
    }

    /** The registry's contents, as values. */
    ghost function Snapshot(): map<string, Descriptor>
      reads this, methods.Values
    {
      map k | k in methods :: methods[k].View()
    }

    constructor (rcvr: Value, name: string, typ: Type, methodSet: seq<Method>)
      ensures this.rcvr == rcvr && this.name == name && this.typ == typ && this.methodSet == methodSet
      ensures methods == map[]
    {
      this.rcvr := rcvr;
      this.name := name;
      this.typ := typ;
      this.methodSet := methodSet;
      methods := map[];
    }

    /** `newService`: the receiver's (dereferenced) type name must be
        exported, or the process ends with a fatal log message; otherwise the
        service is built and its methods are registered. */
    static method NewService(rcvr: Value, methodSet: seq<Method>) returns (r: Result<Service>)
      ensures IndirectType(rcvr).Fail? ==> r == Fail(IndirectType(rcvr).failure)
      ensures IndirectType(rcvr).Ok? ==>
                var n := IndirectType(rcvr).value.name;
                (r.Fail? <==> !IsExported(n)) &&
                (r.Fail? ==> r.failure == Fatal("rpc server: " + n + " is not a valid service name"))
      ensures r.Ok? ==> IndirectType(rcvr).Ok? && r.value.name == IndirectType(rcvr).value.name
      ensures r.Ok? ==> fresh(r.value) && r.value.rcvr == rcvr && r.value.typ == TypeOf(rcvr)
      ensures r.Ok? ==> r.value.methodSet == methodSet && r.value.Valid()
      ensures r.Ok? ==> r.value.Snapshot() == Registry(methodSet)
      ensures r.Ok? ==> forall k :: k in r.value.methods ==> fresh(r.value.methods[k])
    {
      var indirect := IndirectType(rcvr);
      if indirect.Fail? {
        return Fail(indirect.failure);
      }
      var n := indirect.value.name;
      if !IsExported(n) {
        return Fail(Fatal("rpc server: " + n + " is not a valid service name"));
      }
      var s := new Service(rcvr, n, TypeOf(rcvr), methodSet);
      s.RegisterMethods();
      return Ok(s);
    }

    /** `registerMethods`: starts from an empty map and stores a fresh
        descriptor for each method that passes the checks, under its name.
        The result depends on the method table only, so running it again
        gives the same registry with every counter back at 0. */
    method RegisterMethods()
      modifies this
      ensures Valid()
      ensures Snapshot() == Registry(methodSet)
      ensures forall k :: k in methods ==> fresh(methods[k])
    {
      methods := map[];
      var i := 0;
      while i < |methodSet|
        invariant 0 <= i <= |methodSet|
        invariant Valid()
        invariant forall k :: k in methods ==> fresh(methods[k])
        invariant methods.Keys == Registry(methodSet[..i]).Keys
        invariant forall k :: k in methods ==> methods[k].View() == Registry(methodSet[..i])[k]
      {
        var m := methodSet[i];
        RegistrySnoc(methodSet, i);
        if |m.ins| != 3 || |m.outs| != 1 {
          i := i + 1;
          continue;
        }
        if m.outs[0] != ErrorType {
          i := i + 1;
          continue;
        }
        var argType, replyType := m.ins[1], m.ins[2];
        if !IsExportedOrBuiltinType(argType) || !IsExportedOrBuiltinType(replyType) {
          i := i + 1;
          continue;
        }
        var mt := new MethodType(m, argType, replyType);
        methods := methods[m.name := mt];
        i := i + 1;
      }
      assert methodSet[..i] == methodSet;
      assert Snapshot().Keys == Registry(methodSet).Keys;
    }

    /** `call`: counts the call on `m`, invokes the method on the receiver,
        the argument and the reply, and hands back the method's own error
        unchanged (nil when the method returned nil). No other descriptor's
        counter and not the map change. */
    method Call(m: MethodType, argv: Value, replyv: Value) returns (err: Option<Error>, reply: Value)
      modifies m
      ensures m.numCalls == AddOne(old(m.numCalls))
      ensures err == m.meth.fn(rcvr, argv, replyv).err
      ensures reply == m.meth.fn(rcvr, argv, replyv).reply
      ensures methods == old(methods)
      ensures forall k :: k in methods && methods[k] != m ==> methods[k].numCalls == old(methods[k].numCalls)
      ensures Valid() && m in methods.Values ==>
                forall k :: k in methods ==>
                  Snapshot()[k] == if methods[k] == m then old(Snapshot()[k]).(numCalls := AddOne(old(m.numCalls)))
                                   else old(Snapshot()[k])
    {
      m.numCalls := AddOne(m.numCalls);
      var returned := m.meth.fn(rcvr, argv, replyv);
      err := returned.err;
      reply := returned.reply;
    }
  }
}
