/**
 Clients of `JClass`, each on a class descriptor of its own, stating what a
 sequence of calls promises: duplicate rejection, the fatal cases of arbitrary
 classes, lookup before and after unregistration, the two field-lookup
 policies, and overloads that the duplicate rule lets through.
 */
module ClassScenarios {
  import opened AllocStack
  import opened Descriptors
  import opened FakeJni

  /** A native-backed class whose strategies never construct anything. */
  method NewNativeClass(name: string, methodEq: MethodEquality, fieldEq: FieldEquality) returns (c: JClass)
    ensures fresh(c) && c.Valid() && !c.isArbitrary && c.className == name
    ensures c.methodEq == methodEq && c.fieldEq == fieldEq
    ensures c.functions == [] && c.fields == []
  {
    var v: ConstructV := (vm: JavaVM, sig: string, list: VaList) => Threw(RuntimeError("no constructor"));
    var a: ConstructA := (vm: JavaVM, sig: string, values: seq<JValue>) => Threw(RuntimeError("no constructor"));
    c := new JClass.NativeBacked(name, 0, v, a, JObjectDescriptor, methodEq, fieldEq);
  }

  /** Stand-ins for the `operator==` a scenario does not exercise. */
  const AnyMethodEquality: MethodEquality := (a: JMethodID, b: JMethodID) => a == b
  const AnyFieldEquality: FieldEquality := (a: JFieldID, b: JFieldID) => a == b

  /**
   Registering `m1` and then a duplicate `m2` (equal under `operator==`, same
   name and signature) returns true then false, and only `m1` stays registered.
   */
  method DuplicateMethodRejected(m1: JMethodID, m2: JMethodID, eq: MethodEquality)
    returns (first: Outcome<bool>, second: Outcome<bool>, registry: seq<JMethodID>)
    requires eq(m1, m2) && m1.name == m2.name && m1.signature == m2.signature
    ensures first == Returned(true) && second == Returned(false)
    ensures registry == [m1]
  {
    var c := NewNativeClass("Registry", eq, AnyFieldEquality);
    first := c.RegisterMethod(m1);
    assert c.functions == [m1] && SameMethod(eq, c.functions[0], m2);
    assert HasMethodDuplicate(c.functions, m2, eq);
    second := c.RegisterMethod(m2);
    registry := c.GetMethods();
  }

  /**
   The same name and signature do not make a duplicate by themselves: when
   `operator==` tells two descriptors apart both are registered, and the
   lookup by signature and name returns the earlier one.
   */
  method OverloadsCoexist(m1: JMethodID, m2: JMethodID, eq: MethodEquality)
    returns (first: Outcome<bool>, second: Outcome<bool>, found: JMethodID?)
    requires !eq(m1, m2) && m1.name == m2.name && m1.signature == m2.signature
    ensures first == Returned(true) && second == Returned(true)
    ensures found == m1
  {
    var c := NewNativeClass("Overloads", eq, AnyFieldEquality);
    first := c.RegisterMethod(m1);
    second := c.RegisterMethod(m2);
    assert c.functions == [m1, m2];
    assert MethodMatches(c.functions[0], m1.signature, m1.name);
    found := c.GetMethod(m1.signature, m1.name);
  }

  /** An instance method never gets onto an arbitrary class, whatever its name and signature. */
  method MemberOnArbitraryThrows(name: string, mid: JMethodID, eq: MethodEquality)
    returns (r: Outcome<bool>, registry: seq<JMethodID>)
    requires mid.kind == MemberFunc
    ensures r == Threw(MemberOnArbitrary)
    ensures registry == []
  {
    var c := new JClass.Arbitrary(name, 0, eq, AnyFieldEquality);
    r := c.RegisterMethod(mid);
    registry := c.GetMethods();
  }

  /** A static method and a field are both accepted by an arbitrary class. */
  method StaticAndFieldOnArbitrary(name: string, mid: JMethodID, fid: JFieldID,
                                   meq: MethodEquality, feq: FieldEquality)
    returns (m: Outcome<bool>, f: bool)
    requires mid.kind == StaticFunc
    ensures m == Returned(true) && f
  {
    var c := new JClass.Arbitrary(name, 0, meq, feq);
    m := c.RegisterMethod(mid);
    f := c.RegisterField(fid);
  }

  /**
   An arbitrary class reports the name it was built with, descends from the
   root descriptor, has empty registries and cannot be instantiated through
   either entry point, whatever the signature and arguments.
   */
  method ArbitraryClassFacts(name: string, modifiers: uint32, meq: MethodEquality, feq: FieldEquality,
                             vm: JavaVM, signature: string, list: VaList, values: seq<JValue>)
    returns (reported: string, super: Superclass, ms: seq<JMethodID>, fs: seq<JFieldID>,
             fromList: Outcome<JObject>, fromArray: Outcome<JObject>)
    ensures reported == name && super == JObjectDescriptor && ms == [] && fs == []
    ensures fromList == Threw(ArbitraryConstruction) && fromArray == Threw(ArbitraryConstruction)
  {
    var c := new JClass.Arbitrary(name, modifiers, meq, feq);
    reported := c.GetName();
    super := c.parent;
    ms := c.GetMethods();
    fs := c.GetFields();
    fromList := c.NewInstanceV(vm, signature, list);
    fromArray := c.NewInstanceA(vm, signature, values);
  }

  /**
   A registered method is found by its signature and name; once unregistered
   it is found no more, and a second unregistration reports false.
   */
  method MethodLifecycle(m: JMethodID, eq: MethodEquality)
    returns (before: JMethodID?, removed: bool, after: JMethodID?, again: bool)
    ensures before == m && removed
    ensures after == null && !again
  {
    var c := NewNativeClass("Lifecycle", eq, AnyFieldEquality);
    var added := c.RegisterMethod(m);
    assert c.functions == [m] && MethodMatches(c.functions[0], m.signature, m.name);
    before := c.GetMethod(m.signature, m.name);
    removed := c.UnregisterMethod(m);
    assert c.functions == [];
    after := c.GetMethod(m.signature, m.name);
    again := c.UnregisterMethod(m);
  }

  /** The same for fields. */
  method FieldLifecycle(f: JFieldID, eq: FieldEquality)
    returns (before: JFieldID?, removed: bool, after: JFieldID?, again: bool)
    ensures before == f && removed
    ensures after == null && !again
  {
    var c := NewNativeClass("Lifecycle", AnyMethodEquality, eq);
    var added := c.RegisterField(f);
    assert c.fields == [f] && FieldMatches(c.fields[0], f.signature, f.name);
    before := c.GetFieldBySignature(f.signature, f.name);
    removed := c.UnregisterField(f);
    assert c.fields == [];
    after := c.GetFieldBySignature(f.signature, f.name);
    again := c.UnregisterField(f);
  }

  /**
   The two field lookups differ: with `f1` registered before `f2` under the
   same name and different signatures, the name-only lookup returns `f1`,
   while the lookup by signature returns whichever one the signature names.
   */
  method FieldLookupPolicies(f1: JFieldID, f2: JFieldID, eq: FieldEquality)
    returns (byName: JFieldID?, bySig1: JFieldID?, bySig2: JFieldID?)
    requires f1.name == f2.name && f1.signature != f2.signature
    ensures byName == f1 && bySig1 == f1 && bySig2 == f2
  {
    var c := NewNativeClass("Fields", AnyMethodEquality, eq);
    var added1 := c.RegisterField(f1);
    var added2 := c.RegisterField(f2);
    assert c.fields == [f1, f2];
    assert FieldNamed(c.fields[0], f1.name) && FieldMatches(c.fields[0], f1.signature, f1.name);
    assert !FieldMatches(c.fields[0], f2.signature, f2.name) && FieldMatches(c.fields[1], f2.signature, f2.name);
    byName := c.GetField(f1.name);
    bySig1 := c.GetFieldBySignature(f1.signature, f1.name);
    bySig2 := c.GetFieldBySignature(f2.signature, f2.name);
  }

  /**
   With an `operator==` that holds of each descriptor with itself, a method
   registry built by the registration rule never holds a pointer twice, so a
   single unregistration takes a method out entirely.
   */
  lemma UnregisterMethodRemovesEntirely(ms: seq<JMethodID>, m: JMethodID, eq: MethodEquality)
    requires NoDuplicateMethods(ms, eq)
    requires forall i :: 0 <= i < |ms| ==> eq(ms[i], ms[i])
    ensures m !in RemoveAlloc(ms, m)
  {
  }

  /** The same for fields. */
  lemma UnregisterFieldRemovesEntirely(fs: seq<JFieldID>, f: JFieldID, eq: FieldEquality)
    requires NoDuplicateFields(fs, eq)
    requires forall i :: 0 <= i < |fs| ==> eq(fs[i], fs[i])
    ensures f !in RemoveAlloc(fs, f)
  {
  }
}
