/**
 * `MethodFilter`: a conjunction of optional conditions over a dex method,
 * built by a mutable `Builder`.  A filter is `unique` when its signature
 * conditions pin down a single (name, parameter list); such a filter turns a
 * method whose signature matched but whose other conditions failed into an
 * abort.  A class can still hold several methods with that signature that
 * differ in return type (bridge methods), so the abort can hide a later
 * method that would match: see `UniqueAbortIgnoresReturnType`.
 *
 * The conditions inherited from `BaseFilter` are represented by whether the
 * base settings are at their defaults (`baseIsDefault`) and by the outcome of
 * `BaseFilter.verify`, passed to `Verify` as `baseVerified`.
 */
module MethodFilters {
  import opened Wrappers
  import opened DexModel
  import DexUtils
  import DecoderSpec
  import opened Verdicts
  import SetFacts

  /** `NEG`: the value that switches the parameter-size condition off. */
  const NEG: int32 := -1

  /** The bits of the `int` `NEG`: the value that switches a modifier condition off. */
  const NEG_FLAGS: bv32 := 0xFFFF_FFFF

  /** The settings of a filter, one per field of `MethodFilter`; `None` is Java's `null`. */
  datatype MethodConfig = MethodConfig(
    flag: bv32,
    skipFlag: bv32,
    paramSize: int32,
    returnType: Option<string>,
    methodNames: Option<set<string>>,
    parameters: Option<seq<string>>,
    annotations: Option<set<string>>,
    annotValues: Option<set<string>>,
    numLiterals: Option<set<int64>>,
    baseIsDefault: bool)

  /** The settings of a fresh `Builder`. */
  const DefaultConfig := MethodConfig(NEG_FLAGS, NEG_FLAGS, NEG, None, None, None, None, None, None, true)

  /**
   * A built filter.  `isMatchAll` stands for the identity test
   * `this == MATCH_ALL`: only the shared instance carries it.
   */
  datatype MethodFilter = MethodFilter(config: MethodConfig, unique: bool, isMatchAll: bool)

  /** `Builder.isDefault`: every setting still at its default, that is, those of a fresh builder. */
  function IsDefault(c: MethodConfig): (r: bool)
    ensures r <==> c == DefaultConfig
  {
    && c.baseIsDefault
    && c.flag == NEG_FLAGS
    && c.skipFlag == NEG_FLAGS
    && c.paramSize == NEG
    && c.parameters.None?
    && c.returnType.None?
    && c.methodNames.None?
    && c.annotations.None?
    && c.annotValues.None?
    && c.numLiterals.None?
  }

  /** The `unique` flag the constructor computes: a single method name, and a parameter list or no parameters. */
  predicate IsUnique(c: MethodConfig) {
    c.methodNames.Some? && |c.methodNames.value| == 1 && (c.parameters.Some? || c.paramSize == 0)
  }

  /** `new MethodFilter(builder)`. */
  function NewFilter(c: MethodConfig): MethodFilter {
    MethodFilter(c, IsUnique(c), false)
  }

  /** `MATCH_ALL`, built from a default builder. */
  const MATCH_ALL := MethodFilter(DefaultConfig, IsUnique(DefaultConfig), true)

  /** `checkMethodSignature`: the name, then the parameter list or else the parameter count. */
  function SignatureMatches(c: MethodConfig, m: DexMethod): (r: bool)
    ensures r <==> && (c.methodNames.Some? ==> m.name in c.methodNames.value)
                   && (c.parameters.Some? ==> m.parameterTypes == c.parameters.value)
                   && (c.parameters.None? && c.paramSize >= 0 ==> |m.parameterTypes| == c.paramSize as int)
  {
    if c.methodNames.Some? && m.name !in c.methodNames.value then false
    else if c.parameters.Some? then
      |c.parameters.value| == |m.parameterTypes| && m.parameterTypes == c.parameters.value
    else c.paramSize < 0 || |m.parameterTypes| == c.paramSize as int
  }

  /** Every bit of `flag` is set in `access`. */
  predicate HasAllBits(access: bv32, flag: bv32) {
    access & flag == flag
  }

  /** No bit of `flag` is set in `access`. */
  predicate HasNoBits(access: bv32, flag: bv32) {
    access & flag == 0
  }

  /** The `setModifiers` condition; `NEG_FLAGS` switches it off. */
  predicate ModifiersHold(flag: bv32, access: bv32) {
    flag == NEG_FLAGS || HasAllBits(access, flag)
  }

  /** The `skipModifiers` condition; `NEG_FLAGS` switches it off. */
  predicate SkipModifiersHold(skipFlag: bv32, access: bv32) {
    skipFlag == NEG_FLAGS || HasNoBits(access, skipFlag)
  }

  /** Stand-in for `FilterUtils.containsAllAnnotations`: every named annotation type is present. */
  predicate ContainsAllAnnotations(m: DexMethod, annotations: set<string>) {
    annotations <= m.annotations
  }

  /** Stand-in for `FilterUtils.containsAllAnnotationValues`. */
  predicate ContainsAllAnnotationValues(m: DexMethod, values: set<string>) {
    values <= m.annotationValues
  }

  /** The conditions `verify` checks once the signature has matched. */
  predicate ConditionsHold(c: MethodConfig, m: DexMethod, baseVerified: bool) {
    && ModifiersHold(c.flag, m.accessFlags)
    && SkipModifiersHold(c.skipFlag, m.accessFlags)
    && (c.returnType.None? || c.returnType.value == m.returnType)
    && (c.annotations.None? || ContainsAllAnnotations(m, c.annotations.value))
    && (c.annotValues.None? || ContainsAllAnnotationValues(m, c.annotValues.value))
    && (c.numLiterals.None? || c.numLiterals.value <= DecoderSpec.MethodLiterals(m))
    && baseVerified
  }

  /**
   * `verify`: `MATCH_ALL` matches everything; a failed signature is no match;
   * otherwise the conditions decide, and a unique filter aborts instead of
   * rejecting.
   */
  function Verify(f: MethodFilter, m: DexMethod, baseVerified: bool): (v: Verdict)
    ensures v == Match <==>
              f.isMatchAll || (SignatureMatches(f.config, m) && ConditionsHold(f.config, m, baseVerified))
    ensures v == Abort <==>
              !f.isMatchAll && f.unique && SignatureMatches(f.config, m) && !ConditionsHold(f.config, m, baseVerified)
    ensures !f.unique ==> v != Abort
    ensures !f.isMatchAll && !SignatureMatches(f.config, m) ==> v == NoMatch
  {
    if f.isMatchAll then Match
    else if !SignatureMatches(f.config, m) then NoMatch
    else
      var result := ConditionsHold(f.config, m, baseVerified);
      if f.unique && !result then Abort
      else if result then Match
      else NoMatch
  }

  /** What a match by a built filter guarantees about the method, condition by condition. */
  lemma MatchMeansConfigured(f: MethodFilter, m: DexMethod, baseVerified: bool)
    requires !f.isMatchAll && Verify(f, m, baseVerified) == Match
    ensures f.config.methodNames.Some? ==> m.name in f.config.methodNames.value
    ensures f.config.parameters.Some? ==> m.parameterTypes == f.config.parameters.value
    ensures f.config.parameters.None? && f.config.paramSize >= 0 ==>
              |m.parameterTypes| == f.config.paramSize as int
    ensures f.config.flag != NEG_FLAGS ==> HasAllBits(m.accessFlags, f.config.flag)
    ensures f.config.skipFlag != NEG_FLAGS ==> HasNoBits(m.accessFlags, f.config.skipFlag)
    ensures f.config.returnType.Some? ==> m.returnType == f.config.returnType.value
    ensures f.config.numLiterals.Some? ==> f.config.numLiterals.value <= DecoderSpec.MethodLiterals(m)
    ensures baseVerified
  {
  }

  /** A method whose name is not among the configured names is rejected, never aborted on. */
  lemma NameMismatchRejects(f: MethodFilter, m: DexMethod, baseVerified: bool)
    requires !f.isMatchAll && f.config.methodNames.Some? && m.name !in f.config.methodNames.value
    ensures Verify(f, m, baseVerified) == NoMatch
  {
  }

  /** A parameter list, once set, makes the parameter size irrelevant. */
  lemma ParameterListOverridesSize(c: MethodConfig, m: DexMethod, size: int32)
    requires c.parameters.Some?
    ensures SignatureMatches(c, m) <==> SignatureMatches(c.(paramSize := size), m)
  {
  }

  /**
   * What makes a unique filter unique: two methods that both pass its
   * signature check have the same name and the same parameter list.  It
   * pins down one (name, parameter list), not one method: the return type
   * is not part of the check.
   */
  lemma UniquePinsSignature(f: MethodFilter, m1: DexMethod, m2: DexMethod)
    requires f.unique && f.unique == IsUnique(f.config)
    requires SignatureMatches(f.config, m1) && SignatureMatches(f.config, m2)
    ensures m1.name == m2.name && m1.parameterTypes == m2.parameterTypes
  {
    SetFacts.SingletonMembers(f.config.methodNames.value, m1.name, m2.name);
  }

  /**
   * The abort is not neutral when return types differ: a unique filter
   * asking for a `String` return aborts on a bridge method `Object get()`
   * although the same class may also declare `String get()`, which the
   * filter matches.
   */
  lemma UniqueAbortIgnoresReturnType()
    ensures var f := NewFilter(DefaultConfig.(methodNames := Some({"get"}), parameters := Some([]),
                                              returnType := Some("Ljava/lang/String;")));
            var bridge := DexMethod("get", [], "Ljava/lang/Object;", 0, {}, {}, None);
            var actual := DexMethod("get", [], "Ljava/lang/String;", 0, {}, {}, None);
            && f.unique
            && Verify(f, bridge, true) == Abort
            && Verify(f, actual, true) == Match
            && bridge.name == actual.name && bridge.parameterTypes == actual.parameterTypes
  {
    var c := DefaultConfig.(methodNames := Some({"get"}), parameters := Some([]),
                            returnType := Some("Ljava/lang/String;"));
    assert |c.methodNames.value| == 1;
  }

  /** `MATCH_ALL` is the default filter, is not unique, and matches every method. */
  lemma MatchAllMatchesEverything(m: DexMethod, baseVerified: bool)
    ensures IsDefault(MATCH_ALL.config) && !MATCH_ALL.unique
    ensures Verify(MATCH_ALL, m, baseVerified) == Match
  {
  }

  /** The abort of a unique filter concerns the one signature it pins down. */
  lemma UniqueAbortIsTheMethod(f: MethodFilter, m: DexMethod, other: DexMethod, baseVerified: bool)
    requires f == NewFilter(f.config) && Verify(f, m, baseVerified) == Abort
    requires SignatureMatches(f.config, other)
    ensures other.name == m.name && other.parameterTypes == m.parameterTypes
  {
    UniquePinsSignature(f, m, other);
  }

  lemma HasAllBitsSplit(access: bv32, f1: bv32, f2: bv32)
    requires HasAllBits(access, f1 | f2)
    ensures HasAllBits(access, f1) && HasAllBits(access, f2)
  {
  }

  lemma HasAllBitsJoin(access: bv32, f1: bv32, f2: bv32)
    requires HasAllBits(access, f1) && HasAllBits(access, f2)
    ensures HasAllBits(access, f1 | f2)
  {
  }

  lemma HasNoBitsSplit(access: bv32, f1: bv32, f2: bv32)
    requires HasNoBits(access, f1 | f2)
    ensures HasNoBits(access, f1) && HasNoBits(access, f2)
  {
  }

  lemma HasNoBitsJoin(access: bv32, f1: bv32, f2: bv32)
    requires HasNoBits(access, f1) && HasNoBits(access, f2)
    ensures HasNoBits(access, f1 | f2)
  {
  }

  /** Neither part of a combination that is not all ones is all ones. */
  lemma PartsNotAllOnes(f1: bv32, f2: bv32)
    requires f1 | f2 != NEG_FLAGS
    ensures f1 != NEG_FLAGS && f2 != NEG_FLAGS
  {
  }

  /**
   * Modifiers combined with `|` are required together: demanding
   * `PUBLIC | STATIC` is demanding both.  The combined value must not be the
   * all-ones `NEG`, which switches the condition off instead.
   */
  lemma CombinedModifiers(access: bv32, f1: bv32, f2: bv32)
    requires f1 | f2 != NEG_FLAGS
    ensures ModifiersHold(f1 | f2, access) <==> ModifiersHold(f1, access) && ModifiersHold(f2, access)
  {
    PartsNotAllOnes(f1, f2);
    if HasAllBits(access, f1 | f2) {
      HasAllBitsSplit(access, f1, f2);
    }
    if HasAllBits(access, f1) && HasAllBits(access, f2) {
      HasAllBitsJoin(access, f1, f2);
    }
  }

  /** Skipped modifiers combined with `|` each exclude a method. */
  lemma CombinedSkipModifiers(access: bv32, f1: bv32, f2: bv32)
    requires f1 | f2 != NEG_FLAGS
    ensures SkipModifiersHold(f1 | f2, access) <==>
              SkipModifiersHold(f1, access) && SkipModifiersHold(f2, access)
  {
    PartsNotAllOnes(f1, f2);
    if HasNoBits(access, f1 | f2) {
      HasNoBitsSplit(access, f1, f2);
    }
    if HasNoBits(access, f1) && HasNoBits(access, f2) {
      HasNoBitsJoin(access, f1, f2);
    }
  }

  /** A `java.lang.Number` passed to `setNumbers`; FLOAT and DOUBLE carry their IEEE-754 bit patterns. */
  datatype JavaNumber =
    | IntegralNumber(longValue: int64)
    | FloatNumber(floatBits: bv32)
    | DoubleNumber(doubleBits: bv64)

  /** The 64-bit key `setNumbers` stores: the float's `int` bits widened, the double's bits, or `longValue()`. */
  function NumberLiteral(n: JavaNumber): (r: int64)
    ensures n.IntegralNumber? ==> r == n.longValue
    ensures n.FloatNumber? ==> r as int == DecoderSpec.ToSigned32(n.floatBits) as int
    ensures n.DoubleNumber? ==> r == DecoderSpec.ToSigned64(n.doubleBits)
  {
    match n
    case IntegralNumber(v) => v
    case FloatNumber(bits) => DecoderSpec.ToSigned32(bits) as int as int64
    case DoubleNumber(bits) => DecoderSpec.ToSigned64(bits)
  }

  /** The set `setNumbers` collects. */
  function NumberLiterals(numbers: seq<JavaNumber>): (r: set<int64>)
    ensures forall x :: x in r <==> exists i :: 0 <= i < |numbers| && NumberLiteral(numbers[i]) == x
  {
    set i | 0 <= i < |numbers| :: NumberLiteral(numbers[i])
  }

  /**
   * A number given to the filter denotes the same 64-bit key as the field
   * constant of that value, so `numLiterals` and the decoded literals speak
   * the same language.
   */
  lemma NumberLiteralAgreesWithDecoder(n: JavaNumber)
    ensures n.FloatNumber? ==>
              DecoderSpec.FieldLiteral(Some(FloatValue(n.floatBits))) == Some(NumberLiteral(n))
    ensures n.DoubleNumber? ==>
              DecoderSpec.FieldLiteral(Some(DoubleValue(n.doubleBits))) == Some(NumberLiteral(n))
    ensures n.IntegralNumber? ==>
              DecoderSpec.FieldLiteral(Some(LongValue(n.longValue))) == Some(NumberLiteral(n))
    ensures forall i: int32 :: DecoderSpec.FieldLiteral(Some(IntValue(i))) ==
              Some(NumberLiteral(IntegralNumber(i as int as int64)))
  {
    if n.FloatNumber? {
      var p := DecoderSpec.FieldLiteral(Some(FloatValue(n.floatBits)));
      assert p.value as int == NumberLiteral(n) as int;
    }
  }

  /** `MethodFilter.Builder`: the settings a filter is built from. */
  class MethodFilterBuilder {
    var flag: bv32
    var skipFlag: bv32
    var paramSize: int32
    var returnType: Option<string>
    var methodNames: Option<set<string>>
    var parameters: Option<seq<string>>
    var annotations: Option<set<string>>
    var annotValues: Option<set<string>>
    var numLiterals: Option<set<int64>>
    var baseIsDefault: bool

    /** The current settings. */
    function Config(): MethodConfig
      reads this
    {
      MethodConfig(flag, skipFlag, paramSize, returnType, methodNames, parameters,
                   annotations, annotValues, numLiterals, baseIsDefault)
    }

    /** `new Builder()`: every setting at its default. */
    constructor ()
      ensures Config() == DefaultConfig && IsDefault(Config())
    {
      flag := NEG_FLAGS;
      skipFlag := NEG_FLAGS;
      paramSize := NEG;
      returnType := None;
      methodNames := None;
      parameters := None;
      annotations := None;
      annotValues := None;
      numLiterals := None;
      baseIsDefault := true;
    }

    /** `toBuilder()`: a builder holding a filter's settings. */
    constructor FromFilter(f: MethodFilter)
      ensures Config() == f.config
    {
      flag := f.config.flag;
      skipFlag := f.config.skipFlag;
      paramSize := f.config.paramSize;
      returnType := f.config.returnType;
      methodNames := f.config.methodNames;
      parameters := f.config.parameters;
      annotations := f.config.annotations;
      annotValues := f.config.annotValues;
      numLiterals := f.config.numLiterals;
      baseIsDefault := f.config.baseIsDefault;
    }

    /**
     * `build()`: the shared `MATCH_ALL` exactly when nothing was set, and
     * otherwise a filter over the current settings whose `unique` flag is
     * computed from them.
     */
    method Build() returns (f: MethodFilter)
      ensures f.isMatchAll <==> IsDefault(Config())
      ensures f.isMatchAll ==> f == MATCH_ALL
      ensures !f.isMatchAll ==> f.config == Config() && (f.unique <==> IsUnique(Config()))
      ensures IsDefault(Config()) ==> forall m, b :: Verify(f, m, b) == Match
    {
      if IsDefault(Config()) {
        f := MATCH_ALL;
      } else {
        f := NewFilter(Config());
      }
    }

    /** `setMethodNames`: no names resets the condition. */
    method SetMethodNames(names: seq<string>)
      modifies this`methodNames
      ensures methodNames.None? <==> names == []
      ensures methodNames.Some? ==> forall n :: n in methodNames.value <==> n in names
    {
      methodNames := if names == [] then None else Some(set n | n in names);
    }

    /** `setModifiers`: every bit of `modifiers` required; `NEG_FLAGS` resets. */
    method SetModifiers(modifiers: bv32)
      modifies this`flag
      ensures flag == modifiers
    {
      flag := modifiers;
    }

    /** `skipModifiers`: methods with any bit of `modifiers` skipped; `NEG_FLAGS` resets. */
    method SkipModifiers(modifiers: bv32)
      modifies this`skipFlag
      ensures skipFlag == modifiers
    {
      skipFlag := modifiers;
    }

    /** `setReturnType`, with the Java name converted to a descriptor; `None` resets. */
    method SetReturnType(name: Option<string>)
      modifies this`returnType
      ensures returnType.None? <==> name.None?
      ensures name.Some? ==> returnType.value == DexUtils.JavaToDexTypeName(name.value)
    {
      returnType := if name.None? then None else Some(DexUtils.JavaToDexTypeName(name.value));
    }

    /** `setParamSize`: `NEG` (-1) resets; any other negative size disables the count check. */
    method SetParamSize(size: int32)
      modifies this`paramSize
      ensures paramSize == size
    {
      paramSize := size;
    }

    /** `setParamList`, each Java name converted to a descriptor in order; `None` resets. */
    method SetParamList(params: Option<seq<string>>)
      modifies this`parameters
      ensures parameters.None? <==> params.None?
      ensures params.Some? ==> parameters.value == DexUtils.JavaToDexTypeNames(params.value)
    {
      parameters := if params.None? then None else Some(DexUtils.JavaToDexTypeNames(params.value));
    }

    /** `containsAnnotations`, with the Java names converted; no names resets. */
    method ContainsAnnotations(names: seq<string>)
      modifies this`annotations
      ensures annotations.None? <==> names == []
      ensures annotations.Some? ==> forall a :: a in annotations.value <==>
                exists i :: 0 <= i < |names| && a == DexUtils.JavaToDexTypeName(names[i])
    {
      var list := DexUtils.JavaToDexTypeNames(names);
      annotations := if list == [] then None else Some(set a | a in list);
    }

    /** `containsAnnotationValues`: no values resets. */
    method ContainsAnnotationValues(values: seq<string>)
      modifies this`annotValues
      ensures annotValues.None? <==> values == []
      ensures annotValues.Some? ==> forall v :: v in annotValues.value <==> v in values
    {
      annotValues := if values == [] then None else Some(set v | v in values);
    }

    /** `setNumbers`: each number as its 64-bit key; no numbers resets. */
    method SetNumbers(numbers: seq<JavaNumber>)
      modifies this`numLiterals
      ensures numLiterals.None? <==> numbers == []
      ensures numLiterals.Some? ==> numLiterals.value == NumberLiterals(numbers)
    {
      var literals := NumberLiterals(numbers);
      if numbers != [] {
        assert NumberLiteral(numbers[0]) in literals;
      }
      numLiterals := if literals == {} then None else Some(literals);
    }

    /** Stands for any setter inherited from `BaseFilter.Builder`: the base settings leave their defaults. */
    method SetBaseConditions()
      modifies this`baseIsDefault
      ensures !baseIsDefault
    {
      baseIsDefault := false;
    }
  }

  /**
   * `ofMethod(method, params)`: a unique filter that matches on signature
   * exactly the methods with that name and that parameter list.
   */
  method OfMethod(name: string, params: seq<string>) returns (f: MethodFilter)
    ensures !f.isMatchAll && f.unique
    ensures forall m :: SignatureMatches(f.config, m) <==>
              m.name == name && m.parameterTypes == DexUtils.JavaToDexTypeNames(params)
  {
    var builder := new MethodFilterBuilder();
    builder.SetMethodNames([name]);
    builder.SetParamList(Some(params));
    assert builder.methodNames.value == {name};
    f := builder.Build();
  }
}
