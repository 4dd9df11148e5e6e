/**
 * The decoding engine: walking files, classes, fields and methods into a
 * fresh `RefsPoolBuffer`, the numeric-literal scans, and the decoder object
 * whose per-(entity, selector) caches amortise dex- and class-level decodes.
 * Each operation is proved against the functions of `DecoderSpec`.
 */
module Decoder {
  import opened Wrappers
  import opened DexModel
  import DexUtils
  import opened FieldRefs
  import opened RefsPool
  import opened DecoderSpec

  /**
   * What every decoding step into a shared buffer promises: the buffer stays
   * consistent and unshared over the same four lists, gains exactly `added`
   * per kind, and keeps its records, with every record after them new.
   */
  twostate predicate Appended(buffer: RefsPoolBuffer, added: PoolData)
    reads buffer, buffer.Lists(), buffer.fields.elems
  {
    && buffer.Valid() && !buffer.needsCopy
    && buffer.Lists() == old(buffer.Lists()) && buffer.published == old(buffer.published)
    && buffer.Data() == old(buffer.Data()).Concat(added)
    && old(buffer.fields.elems) <= buffer.fields.elems
    && (forall i :: |old(buffer.fields.elems)| <= i < |buffer.fields.elems| ==> fresh(buffer.fields.elems[i]))
    && old(buffer.methods.elems) <= buffer.methods.elems
    && (forall i :: |old(buffer.methods.elems)| <= i < |buffer.methods.elems| ==> fresh(buffer.methods.elems[i]))
  }

  // ---------------------------------------------------------------- into a buffer

  /** `decodeReference`: a valid reference of a selected kind is added; an invalid one is dropped. */
  method DecodeReference(reference: Reference, types: ReferenceTypes, buffer: RefsPoolBuffer)
    requires buffer.Valid() && !buffer.needsCopy
    modifies buffer, buffer.Lists()
    ensures Appended(buffer, ReferenceData(reference, types))
  {
    if reference.valid {
      match reference.target
      case StringTarget(s) =>
        if types.hasString { buffer.AddString(s); }
      case FieldTarget(f) =>
        if types.hasField { buffer.AddField(f); }
      case MethodTarget(m) =>
        if types.hasMethod { buffer.AddMethod(m); }
      case TypeTarget(d) =>
        if types.hasTypeDes { buffer.AddType(d); }
      case OtherTarget =>
    }
  }

  /** One instruction of `decodeMethodReferences`: its reference, then the second reference of a dual instruction. */
  method DecodeInstruction(ins: Instruction, types: ReferenceTypes, buffer: RefsPoolBuffer)
    requires buffer.Valid() && !buffer.needsCopy
    modifies buffer, buffer.Lists()
    ensures Appended(buffer, InstructionData(ins, types))
  {
    if ins.reference.Some? {
      ghost var start := buffer.Data();
      var first := ins.reference.value;
      DecodeReference(first, types, buffer);
      if ins.reference2.Some? {
        var second := ins.reference2.value;
        DecodeReference(second, types, buffer);
        ConcatAssociative(start, ReferenceData(first, types), ReferenceData(second, types));
      } else {
        ConcatEmpty(ReferenceData(first, types));
      }
    }
  }

  /** `decodeMethodReferences` into a buffer: nothing without an implementation or a selected kind. */
  method DecodeMethodReferencesInto(m: DexMethod, types: ReferenceTypes, buffer: RefsPoolBuffer)
    requires buffer.Valid() && !buffer.needsCopy
    modifies buffer, buffer.Lists()
    ensures Appended(buffer, MethodData(m, types))
  {
    if m.implementation.None? || types.HasNone() {
      return;
    }
    var instructions := m.implementation.value;
    var i := 0;
    while i < |instructions|
      invariant 0 <= i <= |instructions|
      invariant Appended(buffer, InstructionsData(instructions[..i], types))
    {
      DecodeInstruction(instructions[i], types, buffer);
      InstructionsDataStep(instructions, i, types);
      ConcatAssociative(old(buffer.Data()), InstructionsData(instructions[..i], types),
                        InstructionData(instructions[i], types));
      i := i + 1;
    }
    assert instructions[..i] == instructions;
  }

  /** The `forEach` of `decodeClassReferences` over the methods in scope. */
  method DecodeMethodsInto(ms: seq<DexMethod>, types: ReferenceTypes, buffer: RefsPoolBuffer)
    requires buffer.Valid() && !buffer.needsCopy
    modifies buffer, buffer.Lists()
    ensures Appended(buffer, MethodsData(ms, types))
  {
    var i := 0;
    while i < |ms|
      invariant 0 <= i <= |ms|
      invariant Appended(buffer, MethodsData(ms[..i], types))
    {
      DecodeMethodReferencesInto(ms[i], types, buffer);
      MethodsDataStep(ms, i, types);
      ConcatAssociative(old(buffer.Data()), MethodsData(ms[..i], types), MethodData(ms[i], types));
      i := i + 1;
    }
    assert ms[..i] == ms;
  }

  /** `decodeFieldReferences`: a STRING initial value is added; any other value, or none, adds nothing. */
  method DecodeFieldReferences(field: DexField, buffer: RefsPoolBuffer)
    requires buffer.Valid() && !buffer.needsCopy
    modifies buffer, buffer.Lists()
    ensures Appended(buffer, FieldData(field))
  {
    match field.initialValue
    case Some(StringValue(s)) =>
      buffer.AddString(s);
    case _ =>
  }

  /** `decodeClassFieldReferences`: the static fields' strings, only when strings are selected. */
  method DecodeClassFieldReferences(c: DexClass, types: ReferenceTypes, buffer: RefsPoolBuffer)
    requires buffer.Valid() && !buffer.needsCopy
    modifies buffer, buffer.Lists()
    ensures Appended(buffer, PoolData(if types.hasString then StaticStrings(DexUtils.StaticFields(c)) else [],
                                      [], [], []))
  {
    if !types.hasString {
      return;
    }
    var fs := DexUtils.StaticFields(c);
    var i := 0;
    while i < |fs|
      invariant 0 <= i <= |fs|
      invariant Appended(buffer, PoolData(StaticStrings(fs[..i]), [], [], []))
    {
      DecodeFieldReferences(fs[i], buffer);
      assert fs[..i + 1][..i] == fs[..i];
      i := i + 1;
    }
    assert fs[..i] == fs;
  }

  /** The string-section filter of `decodeDexReferences`: every string not in `rm`, in order. */
  method AddLiteralStrings(ss: seq<string>, rm: set<string>, buffer: RefsPoolBuffer)
    requires buffer.Valid() && !buffer.needsCopy
    modifies buffer, buffer.Lists()
    ensures Appended(buffer, PoolData(LiteralStrings(ss, rm), [], [], []))
  {
    var i := 0;
    while i < |ss|
      invariant 0 <= i <= |ss|
      invariant Appended(buffer, PoolData(LiteralStrings(ss[..i], rm), [], [], []))
    {
      if ss[i] !in rm {
        buffer.AddString(ss[i]);
      }
      assert ss[..i + 1][..i] == ss[..i];
      i := i + 1;
    }
    assert ss[..i] == ss;
  }

  /** `forEach(buffer::add)` over a field section. */
  method AddFields(fs: seq<RawField>, buffer: RefsPoolBuffer)
    requires buffer.Valid() && !buffer.needsCopy
    modifies buffer, buffer.Lists()
    ensures Appended(buffer, PoolData([], [], fs, []))
  {
    var i := 0;
    while i < |fs|
      invariant 0 <= i <= |fs|
      invariant Appended(buffer, PoolData([], [], fs[..i], []))
    {
      buffer.AddField(fs[i]);
      assert fs[..i + 1] == fs[..i] + [fs[i]];
      i := i + 1;
    }
    assert fs[..i] == fs;
  }

  /** `forEach(buffer::add)` over a method section. */
  method AddMethods(ms: seq<RawMethod>, buffer: RefsPoolBuffer)
    requires buffer.Valid() && !buffer.needsCopy
    modifies buffer, buffer.Lists()
    ensures Appended(buffer, PoolData([], [], [], ms))
  {
    var i := 0;
    while i < |ms|
      invariant 0 <= i <= |ms|
      invariant Appended(buffer, PoolData([], [], [], ms[..i]))
    {
      buffer.AddMethod(ms[i]);
      assert ms[..i + 1] == ms[..i] + [ms[i]];
      i := i + 1;
    }
    assert ms[..i] == ms;
  }

  /** `forEach(buffer::add)` over the type references. */
  method AddTypes(ds: seq<string>, buffer: RefsPoolBuffer)
    requires buffer.Valid() && !buffer.needsCopy
    modifies buffer, buffer.Lists()
    ensures Appended(buffer, PoolData([], ds, [], []))
  {
    var i := 0;
    while i < |ds|
      invariant 0 <= i <= |ds|
      invariant Appended(buffer, PoolData([], ds[..i], [], []))
    {
      buffer.AddType(ds[i]);
      assert ds[..i + 1] == ds[..i] + [ds[i]];
      i := i + 1;
    }
    assert ds[..i] == ds;
  }

  // ---------------------------------------------------------------- whole entities

  /** The set `rm` of `decodeDexReferences`: the type section, then every field and method name. */
  method IdentifierNamesOf(file: DexFile) returns (rm: set<string>)
    ensures rm == IdentifierNames(file)
  {
    rm := set s | s in file.typeSection;
    var i := 0;
    while i < |file.fieldSection|
      invariant 0 <= i <= |file.fieldSection|
      invariant rm == (set s | s in file.typeSection) + (set r | r in file.fieldSection[..i] :: r.name)
    {
      assert file.fieldSection[..i + 1] == file.fieldSection[..i] + [file.fieldSection[i]];
      rm := rm + {file.fieldSection[i].name};
      i := i + 1;
    }
    assert file.fieldSection[..i] == file.fieldSection;
    var j := 0;
    while j < |file.methodSection|
      invariant 0 <= j <= |file.methodSection|
      invariant rm == (set s | s in file.typeSection) + (set r | r in file.fieldSection :: r.name)
                      + (set r | r in file.methodSection[..j] :: r.name)
    {
      assert file.methodSection[..j + 1] == file.methodSection[..j] + [file.methodSection[j]];
      rm := rm + {file.methodSection[j].name};
      j := j + 1;
    }
    assert file.methodSection[..j] == file.methodSection;
  }

  /** The string block of `decodeDexReferences`: when strings are selected, every string that is no identifier. */
  method DecodeDexStrings(file: DexFile, types: ReferenceTypes, buffer: RefsPoolBuffer)
    requires buffer.Valid() && !buffer.needsCopy
    modifies buffer, buffer.Lists()
    ensures Appended(buffer, PoolData(DexData(file, types).strings, [], [], []))
  {
    if types.hasString {
      var rm := IdentifierNamesOf(file);
      AddLiteralStrings(file.stringSection, rm, buffer);
    }
  }

  /** The section lines of `decodeDexReferences`: the field, method and type sections, each when selected. */
  method DecodeDexSections(file: DexFile, types: ReferenceTypes, buffer: RefsPoolBuffer)
    requires buffer.Valid() && !buffer.needsCopy
    modifies buffer, buffer.Lists()
    ensures Appended(buffer, DexData(file, types).(strings := []))
  {
    ghost var start := buffer.Data();
    ghost var fields, methods := [], [];
    if types.hasField {
      AddFields(file.fieldSection, buffer);
      fields := file.fieldSection;
    }
    assert Appended(buffer, PoolData([], [], fields, []));
    if types.hasMethod {
      AddMethods(file.methodSection, buffer);
      methods := file.methodSection;
      ConcatAssociative(start, PoolData([], [], fields, []), PoolData([], [], [], methods));
    }
    assert Appended(buffer, PoolData([], [], fields, methods));
    if types.hasTypeDes {
      AddTypes(file.typeSection, buffer);
      ConcatAssociative(start, PoolData([], [], fields, methods), PoolData([], file.typeSection, [], []));
    }
  }

  /** `decodeDexReferences`: the file's pool, published through a new buffer. */
  method DecodeDexReferences(file: DexFile, types: ReferenceTypes, resolve: bool) returns (pool: ReferencePool)
    ensures fresh(pool.Lists()) && pool.Contents() == DexData(file, types)
    ensures pool.DetailsAre(types.fieldDetails, types.methodDetails)
    ensures resolve ==> pool.Resolved()
  {
    var buffer := new RefsPoolBuffer(types);
    assert buffer.fields.elems == [] && buffer.methods.elems == [];
    DecodeDexStrings(file, types, buffer);
    assert buffer.Data() == PoolData(DexData(file, types).strings, [], [], []);
    DecodeDexSections(file, types, buffer);
    assert buffer.Data() == DexData(file, types);
    pool := buffer.GetPoolWith(resolve);
  }

  /** `decodeClassReferences`: static-field strings, then the methods of the selector's scope. */
  method DecodeClassReferences(c: DexClass, types: ReferenceTypes, resolve: bool) returns (pool: ReferencePool)
    ensures fresh(pool.Lists()) && pool.Contents() == ClassData(c, types)
    ensures pool.DetailsAre(types.fieldDetails, types.methodDetails)
    ensures resolve ==> pool.Resolved()
  {
    var buffer := new RefsPoolBuffer(types);
    assert buffer.fields.elems == [] && buffer.methods.elems == [];
    DecodeClassFieldReferences(c, types, buffer);
    ghost var statics := PoolData(if types.hasString then StaticStrings(DexUtils.StaticFields(c)) else [], [], [], []);
    assert buffer.Data() == statics;
    assert buffer.fields.elems == [] && buffer.methods.elems == [];
    DecodeMethodsInto(MethodsInScope(c, types.scope), types, buffer);
    assert buffer.Data() == ClassData(c, types);
    pool := buffer.GetPoolWith(resolve);
  }

  /** `decodeMethodReferences` with its own buffer. */
  method DecodeMethodReferences(m: DexMethod, types: ReferenceTypes, resolve: bool) returns (pool: ReferencePool)
    ensures fresh(pool.Lists()) && pool.Contents() == MethodData(m, types)
    ensures pool.DetailsAre(types.fieldDetails, types.methodDetails)
    ensures resolve ==> pool.Resolved()
  {
    var buffer := new RefsPoolBuffer(types);
    assert buffer.fields.elems == [] && buffer.methods.elems == [];
    DecodeMethodReferencesInto(m, types, buffer);
    pool := buffer.GetPoolWith(resolve);
  }

  /** `decodeFully(DexBackedDexFile)`: every kind, every record resolved. */
  method DecodeFullyDex(file: DexFile) returns (pool: ReferencePool)
    ensures fresh(pool.Lists()) && pool.Contents() == DexData(file, AllTypes) && pool.Resolved()
    ensures pool.DetailsAre(true, true)
  {
    pool := DecodeDexReferences(file, AllTypes, true);
  }

  /** `decodeFully(DexBackedClassDef)`: every kind over all methods, every record resolved. */
  method DecodeFullyClass(c: DexClass) returns (pool: ReferencePool)
    ensures fresh(pool.Lists()) && pool.Contents() == ClassData(c, AllTypes) && pool.Resolved()
    ensures pool.DetailsAre(true, true)
  {
    pool := DecodeClassReferences(c, AllTypes, true);
  }

  /** `decodeFully(DexBackedField)`: the empty pool without an initial value, else its string, if any. */
  method DecodeFullyField(field: DexField) returns (pool: ReferencePool)
    ensures fresh(pool.Lists()) && pool.Contents() == FieldData(field) && pool.Resolved()
  {
    if field.initialValue.None? {
      pool := EmptyPool();
      return;
    }
    var buffer := new RefsPoolBuffer(AllTypes);
    DecodeFieldReferences(field, buffer);
    pool := buffer.GetPoolWith(true);
  }

  /** `decodeFully(DexBackedMethod)`: every kind, every record resolved. */
  method DecodeFullyMethod(m: DexMethod) returns (pool: ReferencePool)
    ensures fresh(pool.Lists()) && pool.Contents() == MethodData(m, AllTypes) && pool.Resolved()
    ensures pool.DetailsAre(true, true)
  {
    pool := DecodeMethodReferences(m, AllTypes, true);
  }

  // ---------------------------------------------------------------- number literals

  /** `decodeNumberLiterals(DexBackedMethod, Set<Long>)`: adds every wide literal of the implementation. */
  method AddMethodLiterals(m: DexMethod, pool: set<int64>) returns (result: set<int64>)
    ensures result == pool + MethodLiterals(m)
  {
    result := pool;
    if m.implementation.None? {
      return;
    }
    var instructions := m.implementation.value;
    var i := 0;
    while i < |instructions|
      invariant 0 <= i <= |instructions|
      invariant result == pool + set j | 0 <= j < i && instructions[j].wideLiteral.Some?
                                       :: instructions[j].wideLiteral.value
    {
      if instructions[i].wideLiteral.Some? {
        result := result + {instructions[i].wideLiteral.value};
      }
      i := i + 1;
    }
  }

  /** `decodeNumberLiterals(DexBackedField, Set<Long>)`: adds the canonical form of a numeric initial value. */
  method AddFieldLiteral(field: DexField, pool: set<int64>) returns (result: set<int64>)
    ensures forall x :: x in result <==> x in pool || FieldLiteral(field.initialValue) == Some(x)
  {
    match FieldLiteral(field.initialValue)
    case Some(v) => result := pool + {v};
    case None => result := pool;
  }

  /** `decodeNumberLiterals(DexBackedClassDef)`: the static fields' constants, then every method's wide literals. */
  method DecodeClassNumberLiterals(c: DexClass) returns (pool: set<int64>)
    ensures pool == ClassLiterals(c)
  {
    pool := {};
    var fs := DexUtils.StaticFields(c);
    var i := 0;
    while i < |fs|
      invariant 0 <= i <= |fs|
      invariant pool == FieldLiterals(fs[..i])
    {
      pool := AddFieldLiteral(fs[i], pool);
      assert forall k :: 0 <= k < i ==> fs[..i + 1][k] == fs[..i][k];
      i := i + 1;
    }
    assert fs[..i] == fs;
    var ms := DexUtils.Methods(c);
    var j := 0;
    while j < |ms|
      invariant 0 <= j <= |ms|
      invariant pool == FieldLiterals(fs) + set x, k | 0 <= k < j && x in MethodLiterals(ms[k]) :: x
    {
      pool := AddMethodLiterals(ms[j], pool);
      j := j + 1;
    }
  }

  /** `decodeNumberLiterals(DexBackedMethod)`: a new set of the method's wide literals. */
  method DecodeMethodNumberLiterals(m: DexMethod) returns (pool: set<int64>)
    ensures pool == MethodLiterals(m)
  {
    pool := AddMethodLiterals(m, {});
  }

  // ---------------------------------------------------------------- the decoder and its caches

  /** `pool` holds what decoding `file` with `types` yields. */
  ghost predicate DexPoolOf(file: DexFile, types: ReferenceTypes, pool: ReferencePool)
    reads pool.Lists()
  {
    pool.Contents() == DexData(file, types) && pool.DetailsAre(types.fieldDetails, types.methodDetails)
  }

  /** `pool` holds what decoding class `c` with `types` yields. */
  ghost predicate ClassPoolOf(c: DexClass, types: ReferenceTypes, pool: ReferencePool)
    reads pool.Lists()
  {
    pool.Contents() == ClassData(c, types) && pool.DetailsAre(types.fieldDetails, types.methodDetails)
  }

  /**
   * `DexDecoder`: dex- and class-level decodes are memoised per (entity,
   * selector) when caching is on; method-level decodes never are.
   */
  class DexDecoder {
    const cache: bool
    var dexCache: map<(DexEntry, ReferenceTypes), ReferencePool>
    var classCache: map<(DexClass, ReferenceTypes), ReferencePool>
    /** The lists of the pools in each cache. */
    ghost var dexRepr: set<object>
    ghost var classRepr: set<object>

    /** Every pool in the dex cache is what decoding its key yields. */
    ghost predicate DexCacheValid()
      reads this`dexCache, this`dexRepr, dexRepr
    {
      && this !in dexRepr
      && forall k :: k in dexCache ==> dexCache[k].Lists() <= dexRepr && DexPoolOf(k.0.dexFile, k.1, dexCache[k])
    }

    /** Every pool in the class cache is what decoding its key yields. */
    ghost predicate ClassCacheValid()
      reads this`classCache, this`classRepr, classRepr
    {
      && this !in classRepr
      && forall k :: k in classCache ==> classCache[k].Lists() <= classRepr && ClassPoolOf(k.0, k.1, classCache[k])
    }

    ghost predicate Valid()
      reads this, dexRepr, classRepr
    {
      DexCacheValid() && ClassCacheValid()
    }

    /** `DexDecoder(DexOptions)`: caching as configured, both caches empty. */
    constructor (enableCache: bool)
      ensures Valid() && cache == enableCache
      ensures dexCache == map[] && classCache == map[] && dexRepr == {} && classRepr == {}
    {
      cache := enableCache;
      dexCache := map[];
      classCache := map[];
      dexRepr := {};
      classRepr := {};
    }

    /** `dexCache.put`: records a decoded pool under its key. */
    method StoreDex(key: (DexEntry, ReferenceTypes), pool: ReferencePool)
      requires DexCacheValid() && DexPoolOf(key.0.dexFile, key.1, pool)
      modifies this`dexCache, this`dexRepr
      ensures DexCacheValid() && dexRepr == old(dexRepr) + pool.Lists()
      ensures dexCache == old(dexCache)[key := pool]
    {
      ghost var before := dexCache;
      dexCache := dexCache[key := pool];
      dexRepr := dexRepr + pool.Lists();
      forall k | k in dexCache
        ensures dexCache[k].Lists() <= dexRepr && DexPoolOf(k.0.dexFile, k.1, dexCache[k])
      {
        if k != key {
          assert dexCache[k] == before[k];
        }
      }
    }

    /** `classCache.put`: records a decoded pool under its key. */
    method StoreClass(key: (DexClass, ReferenceTypes), pool: ReferencePool)
      requires ClassCacheValid() && ClassPoolOf(key.0, key.1, pool)
      modifies this`classCache, this`classRepr
      ensures ClassCacheValid() && classRepr == old(classRepr) + pool.Lists()
      ensures classCache == old(classCache)[key := pool]
    {
      ghost var before := classCache;
      classCache := classCache[key := pool];
      classRepr := classRepr + pool.Lists();
      forall k | k in classCache
        ensures classCache[k].Lists() <= classRepr && ClassPoolOf(k.0, k.1, classCache[k])
      {
        if k != key {
          assert classCache[k] == before[k];
        }
      }
    }

    /** `decode(DexEntry, ReferenceTypes)`. */
    method DecodeEntry(entry: DexEntry, types: ReferenceTypes) returns (pool: ReferencePool)
      requires Valid()
      modifies this`dexCache, this`dexRepr
      ensures Valid() && dexRepr >= old(dexRepr) && classCache == old(classCache)
      ensures pool.Contents() == DexData(entry.dexFile, types)
      ensures pool.DetailsAre(types.fieldDetails, types.methodDetails)
      ensures types.HasNone() || !cache ==> fresh(pool.Lists()) && dexCache == old(dexCache)
      ensures !types.HasNone() && cache && (entry, types) in old(dexCache) ==>
                pool == old(dexCache)[(entry, types)] && dexCache == old(dexCache)
      ensures !types.HasNone() && cache && (entry, types) !in old(dexCache) ==>
                fresh(pool.Lists()) && dexCache == old(dexCache)[(entry, types) := pool]
    {
      if types.HasNone() {
        pool := EmptyPool();
        assert DexCacheValid() && ClassCacheValid();
        return;
      }
      var key := (entry, types);
      if cache && key in dexCache {
        pool := dexCache[key];
        return;
      }
      pool := DecodeDexReferences(entry.dexFile, types, false);
      assert DexCacheValid() && ClassCacheValid();
      if cache {
        StoreDex(key, pool);
        assert ClassCacheValid();
      }
    }

    /** `decode(DexBackedClassDef, ReferenceTypes)`. */
    method DecodeClass(c: DexClass, types: ReferenceTypes) returns (pool: ReferencePool)
      requires Valid()
      modifies this`classCache, this`classRepr
      ensures Valid() && classRepr >= old(classRepr) && dexCache == old(dexCache)
      ensures pool.Contents() == ClassData(c, types)
      ensures pool.DetailsAre(types.fieldDetails, types.methodDetails)
      ensures types.HasNone() || !cache ==> fresh(pool.Lists()) && classCache == old(classCache)
      ensures !types.HasNone() && cache && (c, types) in old(classCache) ==>
                pool == old(classCache)[(c, types)] && classCache == old(classCache)
      ensures !types.HasNone() && cache && (c, types) !in old(classCache) ==>
                fresh(pool.Lists()) && classCache == old(classCache)[(c, types) := pool]
    {
      if types.HasNone() {
        pool := EmptyPool();
        ClassDataSelectedKinds(c, types);
        assert DexCacheValid() && ClassCacheValid();
        return;
      }
      var key := (c, types);
      if cache && key in classCache {
        pool := classCache[key];
        return;
      }
      pool := DecodeClassReferences(c, types, false);
      assert DexCacheValid() && ClassCacheValid();
      if cache {
        StoreClass(key, pool);
        assert DexCacheValid();
      }
    }

    /** `decode(DexBackedMethod, ReferenceTypes)`: always decoded afresh, the caches untouched. */
    method DecodeMethod(m: DexMethod, types: ReferenceTypes) returns (pool: ReferencePool)
      ensures fresh(pool.Lists()) && pool.Contents() == MethodData(m, types)
      ensures pool.DetailsAre(types.fieldDetails, types.methodDetails)
    {
      pool := DecodeMethodReferences(m, types, false);
    }
  }
}
