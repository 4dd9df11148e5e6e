/**
 * The helpers of `DexUtils` (and the Java platform) that the core calls.
 * The name-format conversions are stand-ins that treat every name as a class
 * name: `javaToDexTypeName` wraps any Java name as `Lpkg/Name;` (so `int`
 * becomes `Lint;`), and `dexToJavaTypeName` unwraps a class descriptor and
 * passes any other descriptor through unchanged.  No proof of the core
 * depends on how they convert.
 */
module DexUtils {
  import opened DexModel

  /** `s` with every occurrence of `a` replaced by `b`. */
  function Replace(s: string, a: char, b: char): (r: string)
    ensures |r| == |s|
    ensures forall i :: 0 <= i < |s| ==> r[i] == (if s[i] == a then b else s[i])
  {
    seq(|s|, i requires 0 <= i < |s| => if s[i] == a then b else s[i])
  }

  /** Stand-in for `DexUtils.dexToJavaTypeName`. */
  function DexToJavaTypeName(descriptor: string): string {
    if |descriptor| >= 2 && descriptor[0] == 'L' && descriptor[|descriptor| - 1] == ';'
    then Replace(descriptor[1..|descriptor| - 1], '/', '.')
    else descriptor
  }

  /** Stand-in for `DexUtils.javaToDexTypeName`. */
  function JavaToDexTypeName(name: string): string {
    "L" + Replace(name, '.', '/') + ";"
  }

  /** The list overload of `DexUtils.javaToDexTypeName`: every name converted, order kept. */
  function JavaToDexTypeNames(names: seq<string>): (r: seq<string>)
    ensures |r| == |names|
    ensures forall i :: 0 <= i < |names| ==> r[i] == JavaToDexTypeName(names[i])
  {
    seq(|names|, i requires 0 <= i < |names| => JavaToDexTypeName(names[i]))
  }

  /** `DexUtils.getFieldSignature`: `className.fieldName:fieldType`. */
  function FieldSignature(from: string, name: string, fieldType: string): string {
    from + "." + name + ":" + fieldType
  }

  /** Java `int` arithmetic: the value of `x` taken modulo 2^32 into the signed range. */
  function Wrap32(x: int): (r: int32)
    ensures (r as int - x) % 0x1_0000_0000 == 0
  {
    ((x + 0x8000_0000) % 0x1_0000_0000 - 0x8000_0000) as int32
  }

  /** `String.hashCode`: s[0]*31^(n-1) + ... + s[n-1] in `int` arithmetic. */
  function StringHash(s: string): int32 {
    if s == [] then 0 else Wrap32(StringHash(s[..|s| - 1]) as int * 31 + s[|s| - 1] as int)
  }

  /** The hash of a dexlib2 field reference, built from its three strings. */
  function FieldHash(r: RawField): int32 {
    Wrap32(Wrap32(StringHash(r.definingClass) as int * 31 + StringHash(r.name) as int) as int * 31
           + StringHash(r.fieldType) as int)
  }

  /** `DexUtils.dexStaticFields`. */
  function StaticFields(c: DexClass): seq<DexField> {
    c.staticFields
  }

  /** `DexUtils.dexMethods`: direct methods first, then virtual ones. */
  function Methods(c: DexClass): seq<DexMethod> {
    c.directMethods + c.virtualMethods
  }
}
