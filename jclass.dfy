/**
 The class descriptor `JClass`: a name, a modifier bitmask, a superclass, an
 "arbitrary" flag, two instantiation strategies, and two ordered registries of
 member descriptors that it grows and shrinks in place.

 A thrown `std::runtime_error` is the `Threw` outcome of `Outcome`; an
 operation declared `noexcept` returns its value directly.
 */
module FakeJni {
  import opened AllocStack
  import opened Descriptors

  /** `uint32_t`, the type of the modifier bitmask. */
  newtype uint32 = x: int | 0 <= x < 0x1_0000_0000

  datatype RuntimeError = RuntimeError(what: string)

  /** Raised by both instantiation strategies of an arbitrary class. */
  const ArbitraryConstruction := RuntimeError("FATAL: Cannot construct an arbitrary class with no native backing!")

  /** Raised when an instance method is registered on an arbitrary class. */
  const MemberOnArbitrary := RuntimeError("FATAL: You cannot register a member function on an arbitrary class that cannot be instantiated!")

  datatype Outcome<T> = Returned(value: T) | Threw(error: RuntimeError)

  /** Opaque handles the core passes on without looking inside. */
  datatype JavaVM = JavaVM(address: nat)
  datatype JObject = JObject(address: nat)
  datatype VaList = VaList(slots: seq<int>)
  datatype JValue = JValue(bits: int)

  /** The two instantiation strategies: from a `va_list` and from a `jvalue` array. */
  type ConstructV = (JavaVM, string, VaList) -> Outcome<JObject>
  type ConstructA = (JavaVM, string, seq<JValue>) -> Outcome<JObject>

  /** A superclass: the root `JObject` descriptor or another class descriptor. */
  datatype Superclass = JObjectDescriptor | Descriptor(jclass: JClass)

  class JClass {
    const isArbitrary: bool
    const className: string
    const modifiers: uint32
    const parent: Superclass
    const constructV: ConstructV
    const constructA: ConstructA
    /**
     The descriptors' `operator==`, one fixed relation for the whole program;
     its definition is not part of this model, so a class is given it.
     */
    const methodEq: MethodEquality
    const fieldEq: FieldEquality

    /** The method registry, in registration order. */
    var functions: seq<JMethodID>
    /** The field registry, in registration order. */
    var fields: seq<JFieldID>

    /**
     No registered entry duplicates an earlier one; and what an arbitrary
     class keeps: no instance method is ever registered on it, and both of its
     strategies always throw.
     */
    ghost predicate Valid()
      reads this
    {
      && NoDuplicateMethods(functions, methodEq)
      && NoDuplicateFields(fields, fieldEq)
      && (isArbitrary ==>
            && (forall i :: 0 <= i < |functions| ==> functions[i].kind != MemberFunc)
            && (forall vm, sig, list :: constructV(vm, sig, list) == Threw(ArbitraryConstruction))
            && (forall vm, sig, values :: constructA(vm, sig, values) == Threw(ArbitraryConstruction)))
    }

    /** The arbitrary constructor: a class known by name and modifiers only. */
    constructor Arbitrary(name: string, modifiers: uint32, methodEq: MethodEquality, fieldEq: FieldEquality)
      ensures Valid()
      ensures isArbitrary && className == name && this.modifiers == modifiers
      ensures this.methodEq == methodEq && this.fieldEq == fieldEq
      ensures parent == JObjectDescriptor
      ensures functions == [] && fields == []
      ensures forall vm, sig, list :: constructV(vm, sig, list) == Threw(ArbitraryConstruction)
      ensures forall vm, sig, values :: constructA(vm, sig, values) == Threw(ArbitraryConstruction)
    {
      constructV := (vm: JavaVM, sig: string, list: VaList) => Threw(ArbitraryConstruction);
      constructA := (vm: JavaVM, sig: string, values: seq<JValue>) => Threw(ArbitraryConstruction);
      isArbitrary := true;
      className := name;
      this.modifiers := modifiers;
      parent := JObjectDescriptor;
      this.methodEq := methodEq;
      this.fieldEq := fieldEq;
      functions := [];
      fields := [];
    }

    /** A class backed by a native implementation, with the strategies its binding supplies. */
    constructor NativeBacked(name: string, modifiers: uint32, constructV: ConstructV, constructA: ConstructA,
                             parent: Superclass, methodEq: MethodEquality, fieldEq: FieldEquality)
      ensures Valid()
      ensures !isArbitrary && className == name && this.modifiers == modifiers && this.parent == parent
      ensures this.methodEq == methodEq && this.fieldEq == fieldEq
      ensures this.constructV == constructV && this.constructA == constructA
      ensures functions == [] && fields == []
    {
      this.constructV := constructV;
      this.constructA := constructA;
      isArbitrary := false;
      className := name;
      this.modifiers := modifiers;
      this.parent := parent;
      this.methodEq := methodEq;
      this.fieldEq := fieldEq;
      functions := [];
      fields := [];
    }

    /**
     `registerMethod`: throws for an instance method on an arbitrary class;
     otherwise rejects a duplicate of a registered entry and appends anything else.
     */
    method RegisterMethod(mid: JMethodID) returns (r: Outcome<bool>)
      requires Valid()
      modifies this`functions
      ensures Valid()
      ensures isArbitrary && mid.kind == MemberFunc ==> r == Threw(MemberOnArbitrary)
      ensures !(isArbitrary && mid.kind == MemberFunc) ==>
                r == Returned(!HasMethodDuplicate(old(functions), mid, methodEq))
      ensures functions == if r == Returned(true) then old(functions) + [mid] else old(functions)
    {
      if isArbitrary {
        if mid.kind == MemberFunc {
          return Threw(MemberOnArbitrary);
        }
      }
      var size := |functions|;
      for i := 0 to size
        invariant !HasMethodDuplicate(functions[..i], mid, methodEq)
      {
        var reg := functions[i];
        if methodEq(reg, mid) {
          if reg.name == mid.name {
            if reg.signature == mid.signature {
              assert SameMethod(methodEq, functions[..size][i], mid);
              return Returned(false);
            }
          }
        }
        assert functions[..i + 1] == functions[..i] + [reg];
      }
      assert functions[..size] == functions;
      AppendKeepsNoDuplicateMethods(functions, mid, methodEq);
      functions := functions + [mid];
      return Returned(true);
    }

    /** `unregisterMethod`: removes the entry identical to `mid`, reporting whether there was one. */
    method UnregisterMethod(mid: JMethodID) returns (found: bool)
      requires Valid()
      modifies this`functions
      ensures Valid()
      ensures found <==> mid in old(functions)
      ensures functions == RemoveAlloc(old(functions), mid)
    {
      var size := |functions|;
      for i := 0 to size
        invariant mid !in functions[..i]
      {
        if functions[i] == mid {
          RemoveKeepsNoDuplicateMethods(functions, mid, methodEq);
          functions := RemoveAlloc(functions, mid);
          return true;
        }
        assert functions[..i + 1] == functions[..i] + [functions[i]];
      }
      assert functions[..size] == functions;
      return false;
    }

    /** `getMethod(sig, name)`: the first entry matching both, or null. */
    method GetMethod(sig: string, name: string) returns (m: JMethodID?)
      ensures m == null <==> forall i :: 0 <= i < |functions| ==> !MethodMatches(functions[i], sig, name)
      ensures m != null ==> m == functions[FirstMethodIndex(functions, sig, name)]
    {
      var size := |functions|;
      for i := 0 to size
        invariant forall j :: 0 <= j < i ==> !MethodMatches(functions[j], sig, name)
      {
        var func := functions[i];
        if name == func.name {
          if sig == func.signature {
            return func;
          }
        }
      }
      return null;
    }

    /** `getMethods`: the whole method registry, in registration order. */
    method GetMethods() returns (ms: seq<JMethodID>)
      ensures ms == functions
    {
      return functions;
    }

    /**
     `registerField`: rejects a duplicate of a registered entry and appends
     anything else; it never throws, on arbitrary classes included.
     */
    method RegisterField(fid: JFieldID) returns (added: bool)
      requires Valid()
      modifies this`fields
      ensures Valid()
      ensures added <==> !HasFieldDuplicate(old(fields), fid, fieldEq)
      ensures fields == if added then old(fields) + [fid] else old(fields)
    {
      var size := |fields|;
      for i := 0 to size
        invariant !HasFieldDuplicate(fields[..i], fid, fieldEq)
      {
        var reg := fields[i];
        if fieldEq(reg, fid) {
          if reg.name == fid.name {
            if reg.signature == fid.signature {
              assert SameField(fieldEq, fields[..size][i], fid);
              return false;
            }
          }
        }
        assert fields[..i + 1] == fields[..i] + [reg];
      }
      assert fields[..size] == fields;
      AppendKeepsNoDuplicateFields(fields, fid, fieldEq);
      fields := fields + [fid];
      return true;
    }

    /** `unregisterField`: removes the entry identical to `fid`, reporting whether there was one. */
    method UnregisterField(fid: JFieldID) returns (found: bool)
      requires Valid()
      modifies this`fields
      ensures Valid()
      ensures found <==> fid in old(fields)
      ensures fields == RemoveAlloc(old(fields), fid)
    {
      var size := |fields|;
      for i := 0 to size
        invariant fid !in fields[..i]
      {
        if fields[i] == fid {
          RemoveKeepsNoDuplicateFields(fields, fid, fieldEq);
          fields := RemoveAlloc(fields, fid);
          return true;
        }
        assert fields[..i + 1] == fields[..i] + [fields[i]];
      }
      assert fields[..size] == fields;
      return false;
    }

    /** `getField(name)`: the first entry with that name, whatever its signature, or null. */
    method GetField(name: string) returns (f: JFieldID?)
      ensures f == null <==> forall i :: 0 <= i < |fields| ==> !FieldNamed(fields[i], name)
      ensures f != null ==> f == fields[FirstFieldByName(fields, name)]
    {
      var size := |fields|;
      for i := 0 to size
        invariant forall j :: 0 <= j < i ==> !FieldNamed(fields[j], name)
      {
        var field := fields[i];
        if name == field.name {
          return field;
        }
      }
      return null;
    }

    /** `getField(sig, name)`: the first entry matching both, or null. */
    method GetFieldBySignature(sig: string, name: string) returns (f: JFieldID?)
      ensures f == null <==> forall i :: 0 <= i < |fields| ==> !FieldMatches(fields[i], sig, name)
      ensures f != null ==> f == fields[FirstFieldBySignature(fields, sig, name)]
    {
      var size := |fields|;
      for i := 0 to size
        invariant forall j :: 0 <= j < i ==> !FieldMatches(fields[j], sig, name)
      {
        var field := fields[i];
        if sig == field.signature {
          if name == field.name {
            return field;
          }
        }
      }
      return null;
    }

    /** `getFields`: the whole field registry, in registration order. */
    method GetFields() returns (fs: seq<JFieldID>)
      ensures fs == fields
    {
      return fields;
    }

    /** `getName`: the name given at construction. */
    function GetName(): (name: string)
      ensures name == className
    {
      className
    }

    /** `newInstance` from a `va_list`: hands the signature and arguments to `constructV`. */
    method NewInstanceV(vm: JavaVM, signature: string, list: VaList) returns (r: Outcome<JObject>)
      requires Valid()
      ensures r == constructV(vm, signature, list)
      ensures isArbitrary ==> r == Threw(ArbitraryConstruction)
    {
      return constructV(vm, signature, list);
    }

    /** `newInstance` from a `jvalue` array: hands the signature and arguments to `constructA`. */
    method NewInstanceA(vm: JavaVM, signature: string, values: seq<JValue>) returns (r: Outcome<JObject>)
      requires Valid()
      ensures r == constructA(vm, signature, values)
      ensures isArbitrary ==> r == Threw(ArbitraryConstruction)
    {
      return constructA(vm, signature, values);
    }
  }
}
