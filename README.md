# JClass: class descriptor and member registries of fake-jni

fake-jni emulates the Java Native Interface so that native libraries written
for a JVM can run without one. This project models its class descriptor,
`FakeJni::JClass` (`src/fake-jni/jvm/class.cpp`), in Dafny and proves what it
promises:

- **Method registry.** `registerMethod` throws on an arbitrary class when given
  an instance method (`MEMBER_FUNC`). Otherwise it rejects a descriptor that
  duplicates a registered one and appends anything else. `unregisterMethod`
  removes by pointer identity. `getMethod(sig, name)` returns the first match
  in registration order.
- **Field registry.** The same rules, except that registration never throws.
  There are two lookup policies: `getField(name)` and `getField(sig, name)`.
- **Arbitrary classes.** These are built from a name and modifiers only. They
  descend from the root `JObject` descriptor, start with empty registries, and
  both `newInstance` entry points always throw.

Files:

- `alloc_stack.dfy` (module `AllocStack`): the owning container as a sequence,
  with removal of the first identical pointer.
- `descriptors.dfy` (module `Descriptors`): the `JMethodID` and `JFieldID`
  descriptors, the match and duplicate predicates, the first-match lookup
  functions, and lemmas about the registry invariant.
- `jclass.dfy` (module `FakeJni`): the class `JClass`. Its registries are
  `seq` fields that the register and unregister methods reassign. The
  register, unregister and lookup methods are loops: the lookups are proved
  against the first-match functions, registration against the duplicate
  predicates, and unregistration against `RemoveAlloc`.
- `scenarios.dfy` (module `ClassScenarios`): clients that each build a fresh
  descriptor and state what a sequence of calls returns.

Modelling choices:

- Descriptors are Dafny objects, so `==` on them is pointer identity.
- The descriptors' own `operator==` (`*reg == *mid`) is defined outside
  `class.cpp`. Each `JClass` holds it as two constant relations, `methodEq`
  and `fieldEq`, given to its constructor and standing for the one fixed
  operator of the program. Nothing is assumed about them. The class
  invariant `Valid()` says that neither registry holds an entry duplicating
  an earlier one under these relations; both constructors establish it and
  all four register and unregister methods keep it.
- A thrown `std::runtime_error` is the `Threw` value of `Outcome`, carrying the
  source's message.
- The `JavaVM` handle, the `va_list` and the `jvalue` array are opaque values
  that are passed through unread.
- The native-backed constructor is declared in a header that is not part of
  this model. `JClass.NativeBacked` stands in for it so that the non-arbitrary
  branches can be reached. It takes the strategies and the superclass as
  parameters.

Behaviour of the code worth knowing:

- Field duplicates are decided by `*reg_fid == *fid` together with the name
  and the signature, just as method duplicates are.
- Two methods with the same name and signature can both be registered when
  `operator==` tells them apart. `getMethod` then returns the earlier one
  (`ClassScenarios.OverloadsCoexist`). So a name and signature can have
  more than one registered match.
- Nothing in `class.cpp` rejects registering the same pointer twice. That
  follows only if `operator==` holds of a descriptor with itself
  (`ReflexiveEqualityMakesMethodsDistinct`).

## Model

| member | source | states |
|---|---|---|
| AllocStack.IndexOf | src/fake-jni/jvm/class.cpp:53-59 | the scan for a pointer stops at its first occurrence; the index is in range exactly when the pointer is present |
| AllocStack.RemoveAlloc | src/fake-jni/jvm/class.cpp:56 | removal by identity drops exactly one copy of the pointer (multiset difference) when present, keeps the survivors in order, and changes nothing when absent |
| AllocStack.RemoveAllocOfDistinct | src/fake-jni/jvm/class.cpp:51-61 | in a registry without repeated pointers, removal leaves the pointer absent and the registry still without repeats |
| AllocStack.RemoveAllocUndoesAppend | src/fake-jni/jvm/class.cpp:47-56 | removing a pointer just appended to a registry that lacked it gives back the original registry |
| Descriptors.FirstMethodIndex | src/fake-jni/jvm/class.cpp:63-75 | the index is the first entry in registration order whose name and signature both match, or the registry length when none does |
| Descriptors.AppendKeepsNoDuplicateMethods | src/fake-jni/jvm/class.cpp:37-48 | appending a descriptor that duplicates no entry (shape, name and signature) keeps the method registry free of duplicates |
| Descriptors.RemoveKeepsNoDuplicateMethods | src/fake-jni/jvm/class.cpp:51-61 | removing by identity keeps the method registry free of duplicates |
| Descriptors.ReflexiveEqualityMakesMethodsDistinct | src/fake-jni/jvm/class.cpp:37-46 | if operator== holds of each entry with itself, a duplicate-free method registry never holds a pointer twice |
| Descriptors.FirstFieldByName | src/fake-jni/jvm/class.cpp:110-120 | the index is the first entry whose name matches, whatever its signature, or the registry length |
| Descriptors.FirstFieldBySignature | src/fake-jni/jvm/class.cpp:122-134 | the index is the first entry whose signature and name both match, or the registry length |
| Descriptors.FieldByNameNoLater | src/fake-jni/jvm/class.cpp:110-134 | the name-only lookup finds an entry at the same or an earlier index than the lookup by signature and name, and finds one whenever the latter does |
| Descriptors.AppendKeepsNoDuplicateFields | src/fake-jni/jvm/class.cpp:84-95 | appending a field that duplicates no entry keeps the field registry free of duplicates |
| Descriptors.RemoveKeepsNoDuplicateFields | src/fake-jni/jvm/class.cpp:98-108 | removing by identity keeps the field registry free of duplicates |
| Descriptors.ReflexiveEqualityMakesFieldsDistinct | src/fake-jni/jvm/class.cpp:84-93 | if operator== holds of each field with itself, a duplicate-free field registry never holds a pointer twice |
| FakeJni.JClass.Arbitrary | src/fake-jni/jvm/class.cpp:11-25 | an arbitrary class is flagged arbitrary, keeps the given name and modifiers, has the root JObject descriptor as parent and empty registries, and both strategies throw the no-native-backing error for every argument |
| FakeJni.JClass.RegisterMethod | src/fake-jni/jvm/class.cpp:27-49 | an instance method on an arbitrary class throws and leaves the registry unchanged; otherwise the result is true exactly when no entry duplicates the descriptor, the descriptor is then appended at the end, and the registry is otherwise unchanged; the class invariant (no duplicate under the class's operator==, no instance method on an arbitrary class) is kept |
| FakeJni.JClass.UnregisterMethod | src/fake-jni/jvm/class.cpp:51-61 | the result is true exactly when the pointer is registered, and the registry becomes the old one with that pointer's first occurrence removed; the class invariant is kept |
| FakeJni.JClass.GetMethod | src/fake-jni/jvm/class.cpp:63-75 | null exactly when no entry matches name and signature, otherwise the first matching entry; the registry is not changed |
| FakeJni.JClass.GetMethods | src/fake-jni/jvm/class.cpp:77-79 | the whole method registry in registration order |
| FakeJni.JClass.RegisterField | src/fake-jni/jvm/class.cpp:81-96 | never throws, on arbitrary classes included; true exactly when no entry duplicates the field, which is then appended; otherwise the registry is unchanged; the class invariant is kept |
| FakeJni.JClass.UnregisterField | src/fake-jni/jvm/class.cpp:98-108 | true exactly when the pointer is registered, and the registry becomes the old one with that pointer's first occurrence removed; the class invariant is kept |
| FakeJni.JClass.GetField | src/fake-jni/jvm/class.cpp:110-120 | null exactly when no entry has the name, otherwise the first entry with it, whatever its signature |
| FakeJni.JClass.GetFieldBySignature | src/fake-jni/jvm/class.cpp:122-134 | null exactly when no entry matches signature and name, otherwise the first entry matching both |
| FakeJni.JClass.GetFields | src/fake-jni/jvm/class.cpp:136-138 | the whole field registry in registration order |
| FakeJni.JClass.GetName | src/fake-jni/jvm/class.cpp:140-142 | the name the class was constructed with |
| FakeJni.JClass.NewInstanceV | src/fake-jni/jvm/class.cpp:144-146 | the result is whatever the va_list strategy returns for the same handle, signature and arguments; on an arbitrary class it is always the no-native-backing error |
| FakeJni.JClass.NewInstanceA | src/fake-jni/jvm/class.cpp:148-150 | the result is whatever the jvalue-array strategy returns for the same handle, signature and arguments; on an arbitrary class it is always the no-native-backing error |
| ClassScenarios.DuplicateMethodRejected | src/fake-jni/jvm/class.cpp:37-48 | registering a descriptor and then one equal to it under operator== with the same name and signature returns true then false, and only the first stays registered |
| ClassScenarios.OverloadsCoexist | src/fake-jni/jvm/class.cpp:37-75 | two descriptors with the same name and signature that operator== tells apart are both registered, and the lookup returns the earlier one |
| ClassScenarios.MemberOnArbitraryThrows | src/fake-jni/jvm/class.cpp:28-34 | an instance method of any name and signature makes registration on an arbitrary class throw, and the registry stays empty |
| ClassScenarios.StaticAndFieldOnArbitrary | src/fake-jni/jvm/class.cpp:28-96 | an arbitrary class accepts a static method and a field |
| ClassScenarios.ArbitraryClassFacts | src/fake-jni/jvm/class.cpp:11-25 | an arbitrary class reports its constructor's name and the root parent, has empty registries, and both newInstance entry points throw for any handle, signature and arguments |
| ClassScenarios.MethodLifecycle | src/fake-jni/jvm/class.cpp:51-75 | a registered method is found by signature and name; after unregistering it (true) the lookup returns null and a second unregistration returns false |
| ClassScenarios.FieldLifecycle | src/fake-jni/jvm/class.cpp:98-134 | the same for a field and the lookup by signature and name |
| ClassScenarios.FieldLookupPolicies | src/fake-jni/jvm/class.cpp:110-134 | with two fields of one name registered in order, the name-only lookup returns the first and the lookup by signature returns the one whose signature is asked for |
| ClassScenarios.UnregisterMethodRemovesEntirely | src/fake-jni/jvm/class.cpp:37-61 | under a reflexive operator==, one unregistration leaves no copy of the method in a duplicate-free registry |
| ClassScenarios.UnregisterFieldRemovesEntirely | src/fake-jni/jvm/class.cpp:84-108 | under a reflexive operator==, one unregistration leaves no copy of the field in a duplicate-free registry |

## Left out

- `AllocStack` internals: the per-element destructor callbacks and the freeing of removed descriptors are not modelled. Ownership transfer on registration is not modelled either, nor the caller keeping the pointer after a rejected one.
- The `const_cast` that lets the `const` registration methods mutate the registries: the methods simply modify the object.
- The bodies of native-backed construction strategies and the marshalling of `va_list` and `jvalue` arguments: these are callables supplied by bindings outside this file. Only the delegation to them is modelled.
- The native-backed constructor and the default superclass it takes are in a header that is not part of this model. `JClass.NativeBacked` takes its strategies and superclass as parameters.
- The `DEFINE_NATIVE_DESCRIPTOR` registration of `JClass`'s own descriptor, and `JClass` being itself a `JObject`: this is glue from headers that are not part of this model. The root descriptor is the marker value `JObjectDescriptor`.
- The definition of `operator==` on `JMethodID` and `JFieldID`: it is not part of this model, so each class is given the relation, and the constructors take it as an extra argument.
- Null pointers, the returned view and the stored name: the descriptor types are non-null, so `unregisterMethod(nullptr)` (which returns false) and `registerMethod(nullptr)` (which can append null) are not modelled; `getMethods` and `getFields` return a copy of the registry rather than a live reference to it; and `className` is a copy of the name rather than the caller's `const char*`, whose later changes it would share.
- `strcmp` on NUL-terminated C strings: names and signatures are Dafny strings compared for equality.
- The `uint32_t` and `unsigned int` loop counters: the registries are assumed smaller than 2^32 entries, so the counters never wrap.
- Concurrency: the source has no synchronisation, and the model is sequential.
