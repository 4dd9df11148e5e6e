/**
 * `FieldRefData`: the record the pool keeps for a field reference.  It holds
 * the raw reference until first use, then replaces it once by its resolved
 * form (class and type converted to Java names when `details` is on, blanked
 * otherwise) and memoises its signature on first request.
 */
module FieldRefs {
  import opened Wrappers
  import opened DexModel
  import DexUtils

  /** The reference a record answers from after resolution. */
  function ResolvedField(f: RawField, details: bool): RawField {
    RawField(if details then DexUtils.DexToJavaTypeName(f.definingClass) else "",
             f.name,
             if details then DexUtils.DexToJavaTypeName(f.fieldType) else "")
  }

  /** The signature computed from resolved data; `[blank]` stands in for class and type without details. */
  function SignatureOf(r: RawField, details: bool): string {
    DexUtils.FieldSignature(if details then r.definingClass else "[blank]",
                            r.name,
                            if details then r.fieldType else "[blank]")
  }

  /** Without details a signature reads `[blank].name:[blank]`; with details, `Class.name:type` in Java names. */
  lemma SignatureForms(f: RawField, details: bool)
    ensures !details ==> SignatureOf(ResolvedField(f, details), details) == "[blank]." + f.name + ":[blank]"
    ensures details ==> SignatureOf(ResolvedField(f, details), details)
                        == DexUtils.DexToJavaTypeName(f.definingClass) + "." + f.name + ":"
                           + DexUtils.DexToJavaTypeName(f.fieldType)
  {
  }

  /** Without details, records built from two references are equal exactly when the names are. */
  lemma WithoutDetailsIdentityIsName(f: RawField, g: RawField)
    ensures ResolvedField(f, false) == ResolvedField(g, false) <==> f.name == g.name
  {
  }

  class FieldRefData {
    const details: bool
    /** The reference the record was built from (the Java object forgets it on resolution). */
    ghost const original: RawField
    var resolved: bool
    var signature: Option<string>
    var data: RawField

    ghost predicate Valid()
      reads this
    {
      && (if resolved then data == ResolvedField(original, details) else data == original)
      && (signature.Some? ==> resolved && signature.value == SignatureOf(data, details))
    }

    /** The identity every accessor reports, before and after resolution alike. */
    ghost function Identity(): RawField {
      ResolvedField(original, details)
    }

    /** A call moves the record forward only: `resolved` and `signature` are set once and then kept. */
    twostate predicate Settles()
      reads this
    {
      && resolved && data == Identity()
      && (old(resolved) ==> data == old(data))
      && (old(signature).Some? ==> signature == old(signature))
    }

    constructor Build(reference: RawField, details: bool)
      ensures Valid()
      ensures this.details == details && original == reference
      ensures !resolved && signature == None
    {
      this.details := details;
      this.original := reference;
      this.data := reference;
      this.resolved := false;
      this.signature := None;
    }

    /** `getData`: resolves on the first call only; every call returns the resolved reference. */
    method GetData() returns (r: RawField)
      requires Valid()
      modifies this
      ensures Valid() && Settles()
      ensures r == Identity()
      ensures signature == old(signature)
      ensures old(resolved) ==> unchanged(this)
    {
      if !resolved {
        resolved := true;
        var name := data.name;
        var from := if details then DexUtils.DexToJavaTypeName(data.definingClass) else "";
        var fieldType := if details then DexUtils.DexToJavaTypeName(data.fieldType) else "";
        data := RawField(from, name, fieldType);
      }
      r := data;
    }

    /** `getName`: resolution keeps the name. */
    method GetName() returns (name: string)
      requires Valid()
      modifies this
      ensures Valid() && Settles() && signature == old(signature)
      ensures name == original.name
    {
      var r := GetData();
      name := r.name;
    }

    /** `getType`: the Java type name with details, "" without. */
    method GetType() returns (fieldType: string)
      requires Valid()
      modifies this
      ensures Valid() && Settles() && signature == old(signature)
      ensures fieldType == if details then DexUtils.DexToJavaTypeName(original.fieldType) else ""
    {
      var r := GetData();
      fieldType := r.fieldType;
    }

    /** `getDeclaringClass`: the Java class name with details, "" without. */
    method GetDeclaringClass() returns (from: string)
      requires Valid()
      modifies this
      ensures Valid() && Settles() && signature == old(signature)
      ensures from == if details then DexUtils.DexToJavaTypeName(original.definingClass) else ""
    {
      var r := GetData();
      from := r.definingClass;
    }

    /** `contains`: the name matches, or, with details, the resolved type or class does. */
    method Contains(value: string) returns (b: bool)
      requires Valid()
      modifies this
      ensures Valid() && Settles() && signature == old(signature)
      ensures b <==> value == original.name
                     || (details && (value == Identity().fieldType || value == Identity().definingClass))
    {
      var r := GetData();
      b := r.name == value || (details && (r.fieldType == value || r.definingClass == value));
    }

    /** `getSignature`: computed on the first call, then returned from the memo. */
    method GetSignature() returns (s: string)
      requires Valid()
      modifies this
      ensures Valid() && Settles()
      ensures s == SignatureOf(Identity(), details)
      ensures signature == Some(s)
      ensures old(signature).Some? ==> unchanged(this)
    {
      if signature.None? {
        var r := GetData();
        var name := r.name;
        var from := if details then r.definingClass else "[blank]";
        var fieldType := if details then r.fieldType else "[blank]";
        signature := Some(DexUtils.FieldSignature(from, name, fieldType));
      }
      s := signature.value;
    }

    /** `hashCode`: the hash of the resolved reference. */
    method HashCode() returns (h: int32)
      requires Valid()
      modifies this
      ensures Valid() && Settles() && signature == old(signature)
      ensures h == DexUtils.FieldHash(Identity())
    {
      var r := GetData();
      h := DexUtils.FieldHash(r);
    }

    /**
     * `equals(Object)`: the same object, or another record whose resolved
     * reference is equal; null and an object of any other class are never
     * equal.  Only when the other object is a different record are both
     * records resolved.
     */
    method Equals(obj: object?) returns (b: bool)
      requires Valid()
      requires obj is FieldRefData ==> (obj as FieldRefData).Valid()
      modifies this, obj
      ensures Valid() && (obj is FieldRefData ==> (obj as FieldRefData).Valid())
      ensures b <==> obj == this || (obj is FieldRefData && Identity() == (obj as FieldRefData).Identity())
      ensures obj == this || !(obj is FieldRefData) ==> unchanged(this) && (obj != null ==> unchanged(obj))
      ensures obj != this && obj is FieldRefData ==> Settles() && (obj as FieldRefData).Settles()
      ensures signature == old(signature)
      ensures obj is FieldRefData ==> (obj as FieldRefData).signature == old((obj as FieldRefData).signature)
    {
      if obj == this {
        b := true;
      } else if obj is FieldRefData {
        var other := obj as FieldRefData;
        var mine := GetData();
        var theirs := other.GetData();
        b := mine == theirs;
      } else {
        b := false;
      }
    }

    /** `toString`: the signature. */
    method ToString() returns (s: string)
      requires Valid()
      modifies this
      ensures Valid() && Settles()
      ensures s == SignatureOf(Identity(), details) && signature == Some(s)
    {
      s := GetSignature();
    }
  }
}
