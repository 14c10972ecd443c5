/**
 Method and field descriptors (`JMethodID`, `JFieldID`) as the class descriptor
 sees them: immutable objects whose identity is their address, carrying a name,
 a signature and, for methods, a kind. The specification functions here give
 the lookups and the duplicate rule of the class descriptor's registries.

 The descriptors' own `operator==` (a comparison of kind and shape that leaves
 name and signature aside) is defined outside the class descriptor; it appears
 here as a relation `eq` that the predicates take as a parameter (a class
 descriptor holds the one it is given), and nothing is assumed about it unless
 a lemma says so.
 */
module Descriptors {
  import opened AllocStack

  /** Instance methods (`MEMBER_FUNC`) against static or free functions. */
  datatype MethodKind = MemberFunc | StaticFunc

  class JMethodID {
    const name: string
    const signature: string
    const kind: MethodKind

    constructor (name: string, signature: string, kind: MethodKind)
      ensures this.name == name && this.signature == signature && this.kind == kind
    {
      this.name := name;
      this.signature := signature;
      this.kind := kind;
    }
  }

  class JFieldID {
    const name: string
    const signature: string

    constructor (name: string, signature: string)
      ensures this.name == name && this.signature == signature
    {
      this.name := name;
      this.signature := signature;
    }
  }

  /** `operator==` on method and on field descriptors. */
  type MethodEquality = (JMethodID, JMethodID) -> bool
  type FieldEquality = (JFieldID, JFieldID) -> bool

  // ---------------------------------------------------------------------------
  // Methods
  // ---------------------------------------------------------------------------

  /** `getMethod(sig, name)` accepts an entry whose name and signature both match exactly. */
  predicate MethodMatches(m: JMethodID, sig: string, name: string) {
    m.name == name && m.signature == sig
  }

  /** The registration rule's duplicate: `*reg == *mid` and the same name and signature. */
  predicate SameMethod(eq: MethodEquality, reg: JMethodID, mid: JMethodID) {
    eq(reg, mid) && reg.name == mid.name && reg.signature == mid.signature
  }

  predicate HasMethodDuplicate(ms: seq<JMethodID>, mid: JMethodID, eq: MethodEquality) {
    exists i :: 0 <= i < |ms| && SameMethod(eq, ms[i], mid)
  }

  /** The registry invariant: no entry duplicates an earlier one. */
  predicate NoDuplicateMethods(ms: seq<JMethodID>, eq: MethodEquality) {
    forall i, j :: 0 <= i < j < |ms| ==> !SameMethod(eq, ms[i], ms[j])
  }

  /** Index of the first entry, in registration order, matching `sig` and `name`; `|ms|` if none does. */
  function FirstMethodIndex(ms: seq<JMethodID>, sig: string, name: string): (k: nat)
    ensures k <= |ms|
    ensures k < |ms| ==> MethodMatches(ms[k], sig, name)
    ensures forall j :: 0 <= j < k ==> !MethodMatches(ms[j], sig, name)
  {
    if ms == [] then 0
    else if MethodMatches(ms[0], sig, name) then 0
    else 1 + FirstMethodIndex(ms[1..], sig, name)
  }

  /** Appending a descriptor that duplicates no entry keeps the registry free of duplicates. */
  lemma AppendKeepsNoDuplicateMethods(ms: seq<JMethodID>, mid: JMethodID, eq: MethodEquality)
    requires NoDuplicateMethods(ms, eq)
    requires !HasMethodDuplicate(ms, mid, eq)
    ensures NoDuplicateMethods(ms + [mid], eq)
  {
  }

  /** Removing by identity keeps the registry free of duplicates. */
  lemma RemoveKeepsNoDuplicateMethods(ms: seq<JMethodID>, mid: JMethodID, eq: MethodEquality)
    requires NoDuplicateMethods(ms, eq)
    ensures NoDuplicateMethods(RemoveAlloc(ms, mid), eq)
  {
  }

  /**
   When `operator==` holds of each registered descriptor with itself, the
   duplicate rule also keeps a pointer from being registered twice.
   */
  lemma ReflexiveEqualityMakesMethodsDistinct(ms: seq<JMethodID>, eq: MethodEquality)
    requires NoDuplicateMethods(ms, eq)
    requires forall i :: 0 <= i < |ms| ==> eq(ms[i], ms[i])
    ensures Distinct(ms)
  {
  }

  // ---------------------------------------------------------------------------
  // Fields
  // ---------------------------------------------------------------------------

  /** `getField(name)` accepts an entry whose name matches, whatever its signature. */
  predicate FieldNamed(f: JFieldID, name: string) {
    f.name == name
  }

  /** `getField(sig, name)` accepts an entry whose signature and name both match. */
  predicate FieldMatches(f: JFieldID, sig: string, name: string) {
    f.signature == sig && f.name == name
  }

  predicate SameField(eq: FieldEquality, reg: JFieldID, fid: JFieldID) {
    eq(reg, fid) && reg.name == fid.name && reg.signature == fid.signature
  }

  predicate HasFieldDuplicate(fs: seq<JFieldID>, fid: JFieldID, eq: FieldEquality) {
    exists i :: 0 <= i < |fs| && SameField(eq, fs[i], fid)
  }

  predicate NoDuplicateFields(fs: seq<JFieldID>, eq: FieldEquality) {
    forall i, j :: 0 <= i < j < |fs| ==> !SameField(eq, fs[i], fs[j])
  }

  /** Index of the first entry named `name`; `|fs|` if none is. */
  function FirstFieldByName(fs: seq<JFieldID>, name: string): (k: nat)
    ensures k <= |fs|
    ensures k < |fs| ==> FieldNamed(fs[k], name)
    ensures forall j :: 0 <= j < k ==> !FieldNamed(fs[j], name)
  {
    if fs == [] then 0
    else if FieldNamed(fs[0], name) then 0
    else 1 + FirstFieldByName(fs[1..], name)
  }

  /** Index of the first entry matching `sig` and `name`; `|fs|` if none does. */
  function FirstFieldBySignature(fs: seq<JFieldID>, sig: string, name: string): (k: nat)
    ensures k <= |fs|
    ensures k < |fs| ==> FieldMatches(fs[k], sig, name)
    ensures forall j :: 0 <= j < k ==> !FieldMatches(fs[j], sig, name)
  {
    if fs == [] then 0
    else if FieldMatches(fs[0], sig, name) then 0
    else 1 + FirstFieldBySignature(fs[1..], sig, name)
  }

  /**
   The name-only lookup never finds a later entry than the lookup by signature
   and name: when the latter finds one, the former finds that one or an earlier one.
   */
  lemma FieldByNameNoLater(fs: seq<JFieldID>, sig: string, name: string)
    ensures FirstFieldByName(fs, name) <= FirstFieldBySignature(fs, sig, name)
    ensures FirstFieldBySignature(fs, sig, name) < |fs| ==> FirstFieldByName(fs, name) < |fs|
  {
  }

  lemma AppendKeepsNoDuplicateFields(fs: seq<JFieldID>, fid: JFieldID, eq: FieldEquality)
    requires NoDuplicateFields(fs, eq)
    requires !HasFieldDuplicate(fs, fid, eq)
    ensures NoDuplicateFields(fs + [fid], eq)
  {
  }

  lemma RemoveKeepsNoDuplicateFields(fs: seq<JFieldID>, fid: JFieldID, eq: FieldEquality)
    requires NoDuplicateFields(fs, eq)
    ensures NoDuplicateFields(RemoveAlloc(fs, fid), eq)
  {
  }

  lemma ReflexiveEqualityMakesFieldsDistinct(fs: seq<JFieldID>, eq: FieldEquality)
    requires NoDuplicateFields(fs, eq)
    requires forall i :: 0 <= i < |fs| ==> eq(fs[i], fs[i])
    ensures Distinct(fs)
  {
  }
}
