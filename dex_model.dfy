/**
 * The parsed bytecode model the decoder and the filters consume: dex files,
 * classes, fields, methods, instructions and the references they carry,
 * together with the type selector (`ReferenceTypes`) and the abstract content
 * of a reference pool.  These values stand for the dexlib2 objects; nothing
 * here parses bytes.
 */
module DexModel {
  import opened Wrappers

  /** Java's `short`, `int` and `long`. */
  newtype int16 = x: int | -0x8000 <= x < 0x8000
  newtype int32 = x: int | -0x8000_0000 <= x < 0x8000_0000
  newtype int64 = x: int | -0x8000_0000_0000_0000 <= x < 0x8000_0000_0000_0000

  /** A field reference: defining class, name and type, all as dex descriptors. */
  datatype RawField = RawField(definingClass: string, name: string, fieldType: string)

  /** A method reference: defining class, name, parameter types and return type. */
  datatype RawMethod = RawMethod(definingClass: string, name: string,
                                 parameterTypes: seq<string>, returnType: string)

  /** What a reference operand points at; `OtherTarget` covers the remaining
      dexlib2 reference kinds (method prototypes, call sites, method handles). */
  datatype RefTarget =
    | StringTarget(value: string)
    | TypeTarget(descriptor: string)
    | FieldTarget(rawField: RawField)
    | MethodTarget(rawMethod: RawMethod)
    | OtherTarget

  /** A reference operand; `valid` is the outcome of dexlib2's `validateReference`. */
  datatype Reference = Reference(target: RefTarget, valid: bool)

  /**
   * One instruction.  `reference` is present for a reference instruction,
   * `reference2` additionally for a dual-reference instruction (it is ignored
   * without `reference`, since every dual-reference instruction is also a
   * reference instruction), `wideLiteral` for a wide-literal instruction.
   */
  datatype Instruction = Instruction(reference: Option<Reference>,
                                     reference2: Option<Reference>,
                                     wideLiteral: Option<int64>)

  /** An encoded constant.  FLOAT and DOUBLE carry their IEEE-754 bit patterns. */
  datatype EncodedValue =
    | ShortValue(shortValue: int16)
    | IntValue(intValue: int32)
    | LongValue(longValue: int64)
    | FloatValue(floatBits: bv32)
    | DoubleValue(doubleBits: bv64)
    | StringValue(stringValue: string)
    | OtherValue

  datatype DexField = DexField(reference: RawField, initialValue: Option<EncodedValue>)

  /** A method; `implementation` is absent for abstract and native methods. */
  datatype DexMethod = DexMethod(name: string, parameterTypes: seq<string>, returnType: string,
                                 accessFlags: bv32, annotations: set<string>,
                                 annotationValues: set<string>,
                                 implementation: Option<seq<Instruction>>)

  datatype DexClass = DexClass(classType: string, staticFields: seq<DexField>,
                               directMethods: seq<DexMethod>, virtualMethods: seq<DexMethod>)

  /** The sections of a dex file, in section order, and its class definitions. */
  datatype DexFile = DexFile(stringSection: seq<string>, typeSection: seq<string>,
                             fieldSection: seq<RawField>, methodSection: seq<RawMethod>,
                             classes: seq<DexClass>)

  /** A named dex file of a container (`classes.dex`, `classes2.dex`, ...). */
  datatype DexEntry = DexEntry(dexName: string, dexFile: DexFile)

  datatype Scope = ALL | NONE | DIRECT | VIRTUAL

  /** The type selector: which reference kinds to extract, the two detail flags and the method scope. */
  datatype ReferenceTypes = ReferenceTypes(hasString: bool, hasTypeDes: bool,
                                           hasField: bool, hasMethod: bool,
                                           fieldDetails: bool, methodDetails: bool,
                                           scope: Scope)
  {
    /** Selects no reference kind at all. */
    predicate HasNone() {
      !hasString && !hasTypeDes && !hasField && !hasMethod
    }
  }

  /** `ReferenceTypes.all()`: every kind, both detail flags, every method. */
  const AllTypes := ReferenceTypes(true, true, true, true, true, true, ALL)

  /**
   * The content of a reference pool: the four record lists, each record given
   * by the reference it was built from.
   */
  datatype PoolData = PoolData(strings: seq<string>, types: seq<string>,
                               fields: seq<RawField>, methods: seq<RawMethod>)
  {
    /** Kind-wise concatenation: what two decode steps into one buffer add up to. */
    function Concat(other: PoolData): PoolData
    {
      PoolData(strings + other.strings, types + other.types,
               fields + other.fields, methods + other.methods)
    }

    predicate IsEmpty() {
      strings == [] && types == [] && fields == [] && methods == []
    }
  }

  const EmptyData := PoolData([], [], [], [])
}
