/**
 * What the decoder extracts, as functions of the entity and the selector, and
 * the properties of that extraction: only selected kinds appear, a narrower
 * selector sees exactly its part of a wider one, invalid references are
 * skipped without disturbing the rest, identifier names are subtracted from
 * the dex string table, and numeric constants are put into one 64-bit form.
 */
module DecoderSpec {
  import opened Wrappers
  import opened DexModel
  import DexUtils

  // ---------------------------------------------------------------- references

  /** `decodeReference`: a valid reference of a selected kind yields one record. */
  function ReferenceData(r: Reference, t: ReferenceTypes): (p: PoolData)
    ensures |p.strings| + |p.types| + |p.fields| + |p.methods| <= 1
    ensures !r.valid ==> p == EmptyData
  {
    if !r.valid then EmptyData
    else match r.target
      case StringTarget(s) => if t.hasString then PoolData([s], [], [], []) else EmptyData
      case FieldTarget(f) => if t.hasField then PoolData([], [], [f], []) else EmptyData
      case MethodTarget(m) => if t.hasMethod then PoolData([], [], [], [m]) else EmptyData
      case TypeTarget(d) => if t.hasTypeDes then PoolData([], [d], [], []) else EmptyData
      case OtherTarget => EmptyData
  }

  /** One instruction: its reference, then its second reference if it has one. */
  function InstructionData(ins: Instruction, t: ReferenceTypes): PoolData {
    match ins.reference
    case None => EmptyData
    case Some(r) =>
      ReferenceData(r, t).Concat(match ins.reference2
                                 case None => EmptyData
                                 case Some(r2) => ReferenceData(r2, t))
  }

  function InstructionsData(s: seq<Instruction>, t: ReferenceTypes): PoolData {
    if s == [] then EmptyData
    else InstructionsData(s[..|s| - 1], t).Concat(InstructionData(s[|s| - 1], t))
  }

  /** A prefix one instruction longer adds that instruction's data at the end. */
  lemma InstructionsDataStep(s: seq<Instruction>, i: nat, t: ReferenceTypes)
    requires i < |s|
    ensures InstructionsData(s[..i + 1], t) == InstructionsData(s[..i], t).Concat(InstructionData(s[i], t))
  {
    assert s[..i + 1][..i] == s[..i];
  }

  /** `decodeMethodReferences`: nothing for a method without implementation or a selector without kinds. */
  function MethodData(m: DexMethod, t: ReferenceTypes): PoolData {
    if m.implementation.None? || t.HasNone() then EmptyData
    else InstructionsData(m.implementation.value, t)
  }

  function MethodsData(ms: seq<DexMethod>, t: ReferenceTypes): PoolData {
    if ms == [] then EmptyData
    else MethodsData(ms[..|ms| - 1], t).Concat(MethodData(ms[|ms| - 1], t))
  }

  /** A prefix one method longer adds that method's data at the end. */
  lemma MethodsDataStep(ms: seq<DexMethod>, i: nat, t: ReferenceTypes)
    requires i < |ms|
    ensures MethodsData(ms[..i + 1], t) == MethodsData(ms[..i], t).Concat(MethodData(ms[i], t))
  {
    assert ms[..i + 1][..i] == ms[..i];
  }

  // ---------------------------------------------------------------- classes

  /** `decodeFieldReferences`: the string a field is initialised with, if any. */
  function FieldStrings(f: DexField): seq<string> {
    match f.initialValue
    case Some(StringValue(s)) => [s]
    case _ => []
  }

  function StaticStrings(fs: seq<DexField>): seq<string> {
    if fs == [] then [] else StaticStrings(fs[..|fs| - 1]) + FieldStrings(fs[|fs| - 1])
  }

  /** `getMethods`: the methods a scope visits; any other scope visits none. */
  function MethodsInScope(c: DexClass, scope: Scope): (r: seq<DexMethod>)
    ensures |r| <= |DexUtils.Methods(c)|
    ensures forall m :: m in r ==> m in DexUtils.Methods(c)
  {
    match scope
    case ALL => DexUtils.Methods(c)
    case DIRECT => c.directMethods
    case VIRTUAL => c.virtualMethods
    case NONE => []
  }

  /** `decodeClassReferences`: static-field strings (when strings are selected), then the methods in scope. */
  function ClassData(c: DexClass, t: ReferenceTypes): PoolData {
    PoolData(if t.hasString then StaticStrings(DexUtils.StaticFields(c)) else [], [], [], [])
      .Concat(MethodsData(MethodsInScope(c, t.scope), t))
  }

  /** `decodeFully(DexBackedField)`: the field's string initial value as a pool. */
  function FieldData(f: DexField): PoolData {
    PoolData(FieldStrings(f), [], [], [])
  }

  // ---------------------------------------------------------------- dex files

  /** The set `rm`: every type descriptor and every field and method name of the file. */
  function IdentifierNames(f: DexFile): set<string> {
    (set s | s in f.typeSection)
      + (set r | r in f.fieldSection :: r.name)
      + (set r | r in f.methodSection :: r.name)
  }

  /** The strings of `ss` that are not in `rm`, in their order. */
  function LiteralStrings(ss: seq<string>, rm: set<string>): seq<string> {
    if ss == [] then []
    else LiteralStrings(ss[..|ss| - 1], rm) + (if ss[|ss| - 1] in rm then [] else [ss[|ss| - 1]])
  }

  /** `decodeDexReferences`: literal strings, then the whole field, method and type sections, as selected. */
  function DexData(f: DexFile, t: ReferenceTypes): PoolData {
    PoolData(if t.hasString then LiteralStrings(f.stringSection, IdentifierNames(f)) else [],
             if t.hasTypeDes then f.typeSection else [],
             if t.hasField then f.fieldSection else [],
             if t.hasMethod then f.methodSection else [])
  }

  // ---------------------------------------------------------------- selector algebra

  /** The part of `p` made of the kinds `t` selects. */
  function Project(p: PoolData, t: ReferenceTypes): PoolData {
    PoolData(if t.hasString then p.strings else [], if t.hasTypeDes then p.types else [],
             if t.hasField then p.fields else [], if t.hasMethod then p.methods else [])
  }

  /** Every kind `t` selects, `u` selects too. */
  predicate SubSelector(t: ReferenceTypes, u: ReferenceTypes) {
    && (t.hasString ==> u.hasString) && (t.hasTypeDes ==> u.hasTypeDes)
    && (t.hasField ==> u.hasField) && (t.hasMethod ==> u.hasMethod)
  }

  lemma ProjectConcat(a: PoolData, b: PoolData, t: ReferenceTypes)
    ensures Project(a.Concat(b), t) == Project(a, t).Concat(Project(b, t))
  {
  }

  lemma ReferenceProjection(r: Reference, t: ReferenceTypes, u: ReferenceTypes)
    requires SubSelector(t, u)
    ensures ReferenceData(r, t) == Project(ReferenceData(r, u), t)
  {
  }

  lemma InstructionProjection(ins: Instruction, t: ReferenceTypes, u: ReferenceTypes)
    requires SubSelector(t, u)
    ensures InstructionData(ins, t) == Project(InstructionData(ins, u), t)
  {
    if ins.reference.Some? {
      var first := ins.reference.value;
      ReferenceProjection(first, t, u);
      if ins.reference2.Some? {
        var second := ins.reference2.value;
        ReferenceProjection(second, t, u);
        ProjectConcat(ReferenceData(first, u), ReferenceData(second, u), t);
        assert InstructionData(ins, u) == ReferenceData(first, u).Concat(ReferenceData(second, u));
        assert InstructionData(ins, t) == ReferenceData(first, t).Concat(ReferenceData(second, t));
      } else {
        ProjectConcat(ReferenceData(first, u), EmptyData, t);
        assert InstructionData(ins, u) == ReferenceData(first, u).Concat(EmptyData);
        assert InstructionData(ins, t) == ReferenceData(first, t).Concat(EmptyData);
      }
    }
  }

  lemma {:induction false} InstructionsProjection(s: seq<Instruction>, t: ReferenceTypes, u: ReferenceTypes)
    requires SubSelector(t, u)
    ensures InstructionsData(s, t) == Project(InstructionsData(s, u), t)
  {
    if s != [] {
      var init, last := s[..|s| - 1], s[|s| - 1];
      InstructionsProjection(init, t, u);
      InstructionProjection(last, t, u);
      ProjectConcat(InstructionsData(init, u), InstructionData(last, u), t);
      assert InstructionsData(s, t) == InstructionsData(init, t).Concat(InstructionData(last, t));
      assert InstructionsData(s, u) == InstructionsData(init, u).Concat(InstructionData(last, u));
    }
  }

  lemma MethodProjection(m: DexMethod, t: ReferenceTypes, u: ReferenceTypes)
    requires SubSelector(t, u)
    ensures MethodData(m, t) == Project(MethodData(m, u), t)
  {
    if m.implementation.Some? && !t.HasNone() {
      InstructionsProjection(m.implementation.value, t, u);
    }
  }

  lemma {:induction false} MethodsProjection(ms: seq<DexMethod>, t: ReferenceTypes, u: ReferenceTypes)
    requires SubSelector(t, u)
    ensures MethodsData(ms, t) == Project(MethodsData(ms, u), t)
  {
    if ms != [] {
      MethodsProjection(ms[..|ms| - 1], t, u);
      MethodProjection(ms[|ms| - 1], t, u);
      ProjectConcat(MethodsData(ms[..|ms| - 1], u), MethodData(ms[|ms| - 1], u), t);
    }
  }

  /**
   * Per kind, a class decoded under `t` is what the same class decoded under
   * a wider `u` with the same scope holds of the kinds `t` selects: each kind
   * is extracted independently of the others.
   */
  lemma ClassProjection(c: DexClass, t: ReferenceTypes, u: ReferenceTypes)
    requires SubSelector(t, u) && t.scope == u.scope
    ensures ClassData(c, t) == Project(ClassData(c, u), t)
  {
    MethodsProjection(MethodsInScope(c, t.scope), t, u);
  }

  /** A class pool holds only the selected kinds; a selector without kinds yields the empty pool. */
  lemma ClassDataSelectedKinds(c: DexClass, t: ReferenceTypes)
    ensures ClassData(c, t) == Project(ClassData(c, t), t)
    ensures t.HasNone() ==> ClassData(c, t).IsEmpty()
  {
    ClassProjection(c, t, t);
  }

  /** A dex pool under `t` is the part of the dex pool under every kind that `t` selects. */
  lemma DexProjection(f: DexFile, t: ReferenceTypes)
    ensures DexData(f, t) == Project(DexData(f, AllTypes), t)
    ensures t.HasNone() ==> DexData(f, t).IsEmpty()
  {
  }

  // ---------------------------------------------------------------- instruction streams

  lemma ConcatAssociative(a: PoolData, b: PoolData, c: PoolData)
    ensures a.Concat(b).Concat(c) == a.Concat(b.Concat(c))
  {
  }

  lemma {:induction false} InstructionsDataAppend(a: seq<Instruction>, b: seq<Instruction>, t: ReferenceTypes)
    ensures InstructionsData(a + b, t) == InstructionsData(a, t).Concat(InstructionsData(b, t))
  {
    if b == [] {
      assert a + b == a;
    } else {
      var b', last := b[..|b| - 1], b[|b| - 1];
      assert (a + b)[..|a + b| - 1] == a + b';
      assert (a + b)[|a + b| - 1] == last;
      InstructionsDataAppend(a, b', t);
      var da, db', dl := InstructionsData(a, t), InstructionsData(b', t), InstructionData(last, t);
      assert InstructionsData(a + b, t) == InstructionsData(a + b', t).Concat(dl);
      assert InstructionsData(b, t) == db'.Concat(dl);
      ConcatAssociative(da, db', dl);
    }
  }

  /**
   * An instruction whose references all fail validation contributes nothing
   * and leaves the records of the instructions around it as they are.
   */
  lemma InvalidReferencesSkipped(a: seq<Instruction>, bad: Instruction, b: seq<Instruction>, t: ReferenceTypes)
    requires bad.reference.Some? ==> !bad.reference.value.valid
    requires bad.reference2.Some? ==> !bad.reference2.value.valid
    ensures InstructionsData(a + [bad] + b, t) == InstructionsData(a, t).Concat(InstructionsData(b, t))
  {
    var ab := a + [bad];
    InstructionsDataAppend(ab, b, t);
    InvalidInstructionEmpty(bad, t);
    assert ab[..|ab| - 1] == a && ab[|ab| - 1] == bad;
    ConcatEmpty(InstructionsData(a, t));
    assert InstructionsData(ab, t) == InstructionsData(a, t);
  }

  lemma ConcatEmpty(p: PoolData)
    ensures p.Concat(EmptyData) == p
  {
  }

  lemma InvalidInstructionEmpty(bad: Instruction, t: ReferenceTypes)
    requires bad.reference.Some? ==> !bad.reference.value.valid
    requires bad.reference2.Some? ==> !bad.reference2.value.valid
    ensures InstructionData(bad, t) == EmptyData
  {
  }

  lemma {:induction false} MethodsDataAppend(a: seq<DexMethod>, b: seq<DexMethod>, t: ReferenceTypes)
    ensures MethodsData(a + b, t) == MethodsData(a, t).Concat(MethodsData(b, t))
  {
    if b == [] {
      assert a + b == a;
    } else {
      var b', last := b[..|b| - 1], b[|b| - 1];
      assert (a + b)[..|a + b| - 1] == a + b';
      assert (a + b)[|a + b| - 1] == last;
      MethodsDataAppend(a, b', t);
      var da, db', dl := MethodsData(a, t), MethodsData(b', t), MethodData(last, t);
      assert MethodsData(a + b, t) == MethodsData(a + b', t).Concat(dl);
      assert MethodsData(b, t) == db'.Concat(dl);
      ConcatAssociative(da, db', dl);
    }
  }

  /** The scope chooses which methods are visited, not what is taken from each. */
  lemma MethodsDataScopeFree(ms: seq<DexMethod>, t: ReferenceTypes, scope: Scope)
    ensures MethodsData(ms, t) == MethodsData(ms, t.(scope := scope))
  {
    var t' := t.(scope := scope);
    MethodsProjection(ms, t, t');
    MethodsProjection(ms, t', t');
  }

  /** Scope ALL visits the direct methods and then the virtual ones; NONE visits no method. */
  lemma ScopeSplit(c: DexClass, t: ReferenceTypes)
    ensures ClassData(c, t.(scope := ALL))
            == ClassData(c, t.(scope := DIRECT)).Concat(MethodsData(c.virtualMethods, t))
    ensures ClassData(c, t.(scope := NONE))
            == PoolData(if t.hasString then StaticStrings(c.staticFields) else [], [], [], [])
  {
    var all, direct := t.(scope := ALL), t.(scope := DIRECT);
    var statics := PoolData(if t.hasString then StaticStrings(c.staticFields) else [], [], [], []);
    MethodsDataAppend(c.directMethods, c.virtualMethods, all);
    MethodsDataScopeFree(c.directMethods, all, DIRECT);
    MethodsDataScopeFree(c.virtualMethods, t, ALL);
    assert direct == all.(scope := DIRECT);
    var dd, dv := MethodsData(c.directMethods, all), MethodsData(c.virtualMethods, all);
    assert ClassData(c, all) == statics.Concat(dd.Concat(dv));
    assert ClassData(c, direct) == statics.Concat(dd);
    ConcatAssociative(statics, dd, dv);
  }

  // ---------------------------------------------------------------- strings

  lemma {:induction false} LiteralStringsMembership(ss: seq<string>, rm: set<string>, x: string)
    ensures x in LiteralStrings(ss, rm) <==> x in ss && x !in rm
  {
    if ss != [] {
      LiteralStringsMembership(ss[..|ss| - 1], rm, x);
      assert ss == ss[..|ss| - 1] + [ss[|ss| - 1]];
    }
  }

  lemma {:induction false} LiteralStringsAppend(a: seq<string>, b: seq<string>, rm: set<string>)
    ensures LiteralStrings(a + b, rm) == LiteralStrings(a, rm) + LiteralStrings(b, rm)
  {
    if b == [] {
      assert a + b == a;
    } else {
      var b' := b[..|b| - 1];
      assert (a + b)[..|a + b| - 1] == a + b';
      LiteralStringsAppend(a, b', rm);
    }
  }

  /**
   * A string reaches the dex pool exactly when strings are selected, it is in
   * the string section, and it is neither a type descriptor nor a field or
   * method name; the filter keeps section order (it distributes over `+`).
   */
  lemma DexStrings(f: DexFile, t: ReferenceTypes, x: string)
    ensures x in DexData(f, t).strings <==>
              && t.hasString && x in f.stringSection
              && x !in f.typeSection
              && (forall r :: r in f.fieldSection ==> r.name != x)
              && (forall r :: r in f.methodSection ==> r.name != x)
    ensures forall a, b :: a + b == f.stringSection && t.hasString ==>
              DexData(f, t).strings == LiteralStrings(a, IdentifierNames(f)) + LiteralStrings(b, IdentifierNames(f))
  {
    LiteralStringsMembership(f.stringSection, IdentifierNames(f), x);
    forall a, b | a + b == f.stringSection && t.hasString
      ensures DexData(f, t).strings == LiteralStrings(a, IdentifierNames(f)) + LiteralStrings(b, IdentifierNames(f))
    {
      LiteralStringsAppend(a, b, IdentifierNames(f));
    }
  }

  lemma {:induction false} StaticStringsMembership(fs: seq<DexField>, x: string)
    ensures x in StaticStrings(fs) <==> exists i :: 0 <= i < |fs| && fs[i].initialValue == Some(StringValue(x))
  {
    if fs != [] {
      var init := fs[..|fs| - 1];
      StaticStringsMembership(init, x);
      if x in StaticStrings(fs) && x !in StaticStrings(init) {
        assert fs[|fs| - 1].initialValue == Some(StringValue(x));
      }
      if exists i :: 0 <= i < |fs| && fs[i].initialValue == Some(StringValue(x)) {
        var i :| 0 <= i < |fs| && fs[i].initialValue == Some(StringValue(x));
        if i < |fs| - 1 {
          assert init[i] == fs[i];
        }
      }
    }
  }

  /**
   * A static field initialised with the name of a method of the file: the
   * string is missing from the dex-level strings, present in the class-level
   * strings, and the method itself is in the dex-level method records.
   */
  lemma IdentifierStringExcludedOnlyAtDexLevel(f: DexFile, c: DexClass, i: nat, m: RawMethod, t: ReferenceTypes)
    requires m in f.methodSection && t.hasString && t.hasMethod
    requires i < |c.staticFields| && c.staticFields[i].initialValue == Some(StringValue(m.name))
    ensures m.name !in DexData(f, t).strings
    ensures m.name in ClassData(c, t).strings
    ensures m in DexData(f, t).methods
  {
    DexStrings(f, t, m.name);
    StaticStringsMembership(c.staticFields, m.name);
  }

  // ---------------------------------------------------------------- number literals

  /** A 32-bit pattern read as a signed `int` and widened to `long`. */
  function ToSigned32(b: bv32): (r: int32)
    ensures (r as int - b as int) % 0x1_0000_0000 == 0
  {
    var n := b as int;
    if n < 0x8000_0000 then n as int32 else (n - 0x1_0000_0000) as int32
  }

  /** A 64-bit pattern read as a signed `long`. */
  function ToSigned64(b: bv64): (r: int64)
    ensures (r as int - b as int) % 0x1_0000_0000_0000_0000 == 0
  {
    var n := b as int;
    if n < 0x8000_0000_0000_0000 then n as int64
    else (n - 0x1_0000_0000_0000_0000) as int64
  }

  /** `decodeNumberLiterals(DexBackedField)`: the canonical 64-bit form of a numeric initial value. */
  function FieldLiteral(v: Option<EncodedValue>): (r: Option<int64>)
    ensures r.Some? <==> v.Some? && (v.value.ShortValue? || v.value.IntValue? || v.value.LongValue?
                                     || v.value.FloatValue? || v.value.DoubleValue?)
    ensures r.Some? && v.value.ShortValue? ==> r.value as int == v.value.shortValue as int
    ensures r.Some? && v.value.IntValue? ==> r.value as int == v.value.intValue as int
    ensures r.Some? && v.value.LongValue? ==> r.value == v.value.longValue
    ensures r.Some? && v.value.FloatValue? ==> r.value as int == ToSigned32(v.value.floatBits) as int
    ensures r.Some? && v.value.DoubleValue? ==> r.value == ToSigned64(v.value.doubleBits)
  {
    match v
    case Some(ShortValue(s)) => Some(s as int as int64)
    case Some(IntValue(i)) => Some(i as int as int64)
    case Some(LongValue(l)) => Some(l)
    case Some(FloatValue(bits)) => Some(ToSigned32(bits) as int as int64)
    case Some(DoubleValue(bits)) => Some(ToSigned64(bits))
    case _ => None
  }

  function FieldLiterals(fs: seq<DexField>): set<int64> {
    set i | 0 <= i < |fs| && FieldLiteral(fs[i].initialValue).Some? :: FieldLiteral(fs[i].initialValue).value
  }

  /** `decodeNumberLiterals(DexBackedMethod)`: the wide literal of every wide-literal instruction. */
  function MethodLiterals(m: DexMethod): set<int64> {
    match m.implementation
    case None => {}
    case Some(ins) => set i | 0 <= i < |ins| && ins[i].wideLiteral.Some? :: ins[i].wideLiteral.value
  }

  /** `decodeNumberLiterals(DexBackedClassDef)`: static fields and all methods together. */
  function ClassLiterals(c: DexClass): set<int64> {
    FieldLiterals(DexUtils.StaticFields(c))
      + (set x, j | 0 <= j < |DexUtils.Methods(c)| && x in MethodLiterals(DexUtils.Methods(c)[j]) :: x)
  }

  /**
   * The canonical forms: `1.5f` is 0x3FC00000, `1.5` is 0x3FF8000000000000,
   * `7` is 7, a negative `short` keeps its value and `-1.0f` (0xBF800000)
   * becomes the negative `long` its `int` pattern denotes.
   */
  lemma CanonicalLiterals()
    ensures FieldLiteral(Some(FloatValue(0x3FC0_0000))) == Some(0x3FC0_0000)
    ensures FieldLiteral(Some(DoubleValue(0x3FF8_0000_0000_0000))) == Some(0x3FF8_0000_0000_0000)
    ensures FieldLiteral(Some(IntValue(7))) == Some(7)
    ensures FieldLiteral(Some(ShortValue(-2))) == Some(-2)
    ensures FieldLiteral(Some(FloatValue(0xBF80_0000))) == Some(-0x4080_0000)
    ensures FieldLiteral(Some(StringValue("7"))) == None && FieldLiteral(None) == None
  {
  }
}
