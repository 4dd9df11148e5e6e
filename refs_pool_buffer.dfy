/**
 * `RefsPoolBuffer`: a copy-on-write accumulator of the four record lists.
 * A published `ReferencePool` views the buffer's lists themselves, so after
 * `getPool` the next `add` first copies all four lists and the published pool
 * never sees a later record.
 */
module RefsPool {
  import opened Wrappers
  import opened DexModel
  import opened FieldRefs

  /** `java.util.ArrayList`, as far as the buffer uses it. */
  class RefList<T> {
    var elems: seq<T>

    constructor ()
      ensures elems == []
    {
      elems := [];
    }

    /** `new ArrayList<>(source)`: a new list with the same records. */
    constructor Copy(source: RefList<T>)
      ensures elems == source.elems
    {
      elems := source.elems;
    }

    method Add(x: T)
      modifies this
      ensures elems == old(elems) + [x]
    {
      elems := elems + [x];
    }
  }

  /** String and type records are immutable values in this model. */
  datatype StringRefData = StringRefData(value: string)
  datatype TypeRefData = TypeRefData(descriptor: string)

  /** The method record, reduced to its details flag and its one-time resolution. */
  class MethodRefData {
    const details: bool
    ghost const original: RawMethod
    var resolved: bool

    constructor Build(reference: RawMethod, details: bool)
      ensures this.details == details && original == reference && !resolved
    {
      this.details := details;
      this.original := reference;
      this.resolved := false;
    }

    /** The resolution `toString` triggers. */
    method Resolve()
      modifies this
      ensures resolved
    {
      resolved := true;
    }
  }

  ghost function FieldsOf(s: seq<FieldRefData>): (r: seq<RawField>)
    ensures |r| == |s| && forall i :: 0 <= i < |s| ==> r[i] == s[i].original
  {
    seq(|s|, i requires 0 <= i < |s| => s[i].original)
  }

  ghost function MethodsOf(s: seq<MethodRefData>): (r: seq<RawMethod>)
    ensures |r| == |s| && forall i :: 0 <= i < |s| ==> r[i] == s[i].original
  {
    seq(|s|, i requires 0 <= i < |s| => s[i].original)
  }

  function StringsOf(s: seq<StringRefData>): (r: seq<string>)
    ensures |r| == |s| && forall i :: 0 <= i < |s| ==> r[i] == s[i].value
  {
    seq(|s|, i requires 0 <= i < |s| => s[i].value)
  }

  function TypesOf(s: seq<TypeRefData>): (r: seq<string>)
    ensures |r| == |s| && forall i :: 0 <= i < |s| ==> r[i] == s[i].descriptor
  {
    seq(|s|, i requires 0 <= i < |s| => s[i].descriptor)
  }

  /** `ReferencePool`: a read-only view of four record lists. */
  datatype ReferencePool = ReferencePool(strings: RefList<StringRefData>, types: RefList<TypeRefData>,
                                         fields: RefList<FieldRefData>, methods: RefList<MethodRefData>)
  {
    ghost function Lists(): set<object> {
      {strings, types, fields, methods}
    }

    ghost function Contents(): PoolData
      reads Lists()
    {
      PoolData(StringsOf(strings.elems), TypesOf(types.elems),
               FieldsOf(fields.elems), MethodsOf(methods.elems))
    }

    /** Every field and method record carries the given detail flag. */
    ghost predicate DetailsAre(fieldDetails: bool, methodDetails: bool)
      reads fields, methods
    {
      && (forall f :: f in fields.elems ==> f.details == fieldDetails)
      && (forall m :: m in methods.elems ==> m.details == methodDetails)
    }

    /** Every record has been resolved and every field signature is memoised. */
    ghost predicate Resolved()
      reads fields, methods, fields.elems, methods.elems
    {
      && (forall f :: f in fields.elems ==> f.resolved && f.signature.Some?)
      && (forall m :: m in methods.elems ==> m.resolved)
    }
  }

  /** `ReferencePool.emptyPool()`. */
  method EmptyPool() returns (pool: ReferencePool)
    ensures fresh(pool.Lists())
    ensures pool.Contents() == EmptyData
  {
    var s := new RefList<StringRefData>();
    var t := new RefList<TypeRefData>();
    var f := new RefList<FieldRefData>();
    var m := new RefList<MethodRefData>();
    pool := ReferencePool(s, t, f, m);
  }

  class RefsPoolBuffer {
    var needsCopy: bool
    var strings: RefList<StringRefData>
    var types: RefList<TypeRefData>
    var fields: RefList<FieldRefData>
    var methods: RefList<MethodRefData>
    const fieldDetails: bool
    const methodDetails: bool
    /** The lists of every pool published so far. */
    ghost var published: set<object>

    ghost function Lists(): set<object>
      reads this
    {
      {strings, types, fields, methods}
    }

    ghost function Data(): PoolData
      reads this, Lists()
    {
      PoolData(StringsOf(strings.elems), TypesOf(types.elems),
               FieldsOf(fields.elems), MethodsOf(methods.elems))
    }

    /** The pool a `getPool` call would publish now. */
    ghost function View(): ReferencePool
      reads this
    {
      ReferencePool(strings, types, fields, methods)
    }

    /**
     * Every field record is consistent and carries `fieldDetails`, every method
     * record carries `methodDetails`, and, unless a copy is pending, no
     * published pool views the current lists (published holds lists only).
     */
    ghost predicate Valid()
      reads this, Lists(), fields.elems
    {
      && (forall f :: f in fields.elems ==> f.Valid() && f.details == fieldDetails)
      && (forall m :: m in methods.elems ==> m.details == methodDetails)
      && this !in published
      && (!needsCopy ==> Lists() !! published)
    }

    constructor (types: ReferenceTypes)
      ensures Valid() && fresh(Lists())
      ensures Data() == EmptyData && !needsCopy && published == {}
      ensures fieldDetails == types.fieldDetails && methodDetails == types.methodDetails
    {
      this.strings := new RefList<StringRefData>();
      this.types := new RefList<TypeRefData>();
      this.fields := new RefList<FieldRefData>();
      this.methods := new RefList<MethodRefData>();
      this.fieldDetails := types.fieldDetails;
      this.methodDetails := types.methodDetails;
      this.needsCopy := false;
      this.published := {};
    }

    /** `update`: copies the four lists once after each `getPool`, keeping their records. */
    method Update()
      requires Valid()
      modifies this
      ensures Valid() && !needsCopy && published == old(published)
      ensures strings.elems == old(strings.elems) && types.elems == old(types.elems)
      ensures fields.elems == old(fields.elems) && methods.elems == old(methods.elems)
      ensures old(needsCopy) ==> fresh(Lists())
      ensures !old(needsCopy) ==> Lists() == old(Lists()) && View() == old(View())
    {
      if needsCopy {
        needsCopy := false;
        strings := new RefList<StringRefData>.Copy(strings);
        types := new RefList<TypeRefData>.Copy(types);
        fields := new RefList<FieldRefData>.Copy(fields);
        methods := new RefList<MethodRefData>.Copy(methods);
      }
    }

    /** `resolve`: forces the resolution of every record; the lists are untouched. */
    method Resolve()
      requires Valid()
      modifies fields.elems, methods.elems
      ensures Valid() && View().Resolved()
      ensures strings.elems == old(strings.elems) && types.elems == old(types.elems)
      ensures fields.elems == old(fields.elems) && methods.elems == old(methods.elems)
    {
      var i := 0;
      while i < |fields.elems|
        invariant 0 <= i <= |fields.elems|
        invariant fields.elems == old(fields.elems) && methods.elems == old(methods.elems)
        invariant Valid()
        invariant forall j :: 0 <= j < i ==> fields.elems[j].resolved && fields.elems[j].signature.Some?
      {
        var _ := fields.elems[i].ToString();
        i := i + 1;
      }
      i := 0;
      while i < |methods.elems|
        invariant 0 <= i <= |methods.elems|
        invariant fields.elems == old(fields.elems) && methods.elems == old(methods.elems)
        invariant Valid()
        invariant forall f :: f in fields.elems ==> f.resolved && f.signature.Some?
        invariant forall j :: 0 <= j < i ==> methods.elems[j].resolved
      {
        methods.elems[i].Resolve();
        i := i + 1;
      }
    }

    /** `getPool()`: publishes a view of the current lists and marks them for copying. */
    method GetPool() returns (pool: ReferencePool)
      requires Valid()
      modifies this`needsCopy, this`published
      ensures Valid() && needsCopy
      ensures pool == View() && pool.Contents() == Data()
      ensures pool.DetailsAre(fieldDetails, methodDetails)
      ensures published == old(published) + Lists()
    {
      needsCopy := true;
      published := published + Lists();
      pool := ReferencePool(strings, types, fields, methods);
    }

    /** `getPool(boolean)`: as `getPool()`, after resolving every record when asked to. */
    method GetPoolWith(resolve: bool) returns (pool: ReferencePool)
      requires Valid()
      modifies this`needsCopy, this`published, fields.elems, methods.elems
      ensures Valid() && needsCopy
      ensures pool == View() && pool.Contents() == old(Data())
      ensures pool.DetailsAre(fieldDetails, methodDetails)
      ensures published == old(published) + Lists()
      ensures resolve ==> pool.Resolved()
      ensures !resolve ==> unchanged(fields.elems) && unchanged(methods.elems)
    {
      if resolve {
        Resolve();
      }
      pool := GetPool();
    }

    /** `add(String)` and `add(StringReference)`: one string record at the end. */
    method AddString(value: string)
      requires Valid()
      modifies this, if needsCopy then {} else Lists()
      ensures Valid() && !needsCopy && published == old(published)
      ensures Data() == old(Data()).(strings := old(Data()).strings + [value])
      ensures unchanged(old(published))
      ensures fields.elems == old(fields.elems) && methods.elems == old(methods.elems)
      ensures old(needsCopy) ==> fresh(Lists())
      ensures !old(needsCopy) ==> Lists() == old(Lists()) && View() == old(View())
    {
      Update();
      strings.Add(StringRefData(value));
    }

    /** `add(TypeReference)`: one type record at the end. */
    method AddType(descriptor: string)
      requires Valid()
      modifies this, if needsCopy then {} else Lists()
      ensures Valid() && !needsCopy && published == old(published)
      ensures Data() == old(Data()).(types := old(Data()).types + [descriptor])
      ensures unchanged(old(published))
      ensures fields.elems == old(fields.elems) && methods.elems == old(methods.elems)
      ensures old(needsCopy) ==> fresh(Lists())
      ensures !old(needsCopy) ==> Lists() == old(Lists()) && View() == old(View())
    {
      Update();
      types.Add(TypeRefData(descriptor));
    }

    /** `add(FieldReference)`: one new field record, built with `fieldDetails`, at the end. */
    method AddField(reference: RawField)
      requires Valid()
      modifies this, if needsCopy then {} else Lists()
      ensures Valid() && !needsCopy && published == old(published)
      ensures Data() == old(Data()).(fields := old(Data()).fields + [reference])
      ensures unchanged(old(published))
      ensures methods.elems == old(methods.elems)
      ensures old(needsCopy) ==> fresh(Lists())
      ensures !old(needsCopy) ==> Lists() == old(Lists()) && View() == old(View())
      ensures |fields.elems| > 0 && fields.elems[..|fields.elems| - 1] == old(fields.elems)
      ensures var f := fields.elems[|fields.elems| - 1];
              fresh(f) && f.details == fieldDetails && !f.resolved && f.signature.None?
    {
      Update();
      var record := new FieldRefData.Build(reference, fieldDetails);
      fields.Add(record);
    }

    /** `add(MethodReference)`: one new method record, built with `methodDetails`, at the end. */
    method AddMethod(reference: RawMethod)
      requires Valid()
      modifies this, if needsCopy then {} else Lists()
      ensures Valid() && !needsCopy && published == old(published)
      ensures Data() == old(Data()).(methods := old(Data()).methods + [reference])
      ensures unchanged(old(published))
      ensures fields.elems == old(fields.elems)
      ensures old(needsCopy) ==> fresh(Lists())
      ensures !old(needsCopy) ==> Lists() == old(Lists()) && View() == old(View())
      ensures |methods.elems| > 0 && methods.elems[..|methods.elems| - 1] == old(methods.elems)
      ensures var m := methods.elems[|methods.elems| - 1];
              fresh(m) && m.details == methodDetails && !m.resolved
    {
      Update();
      var record := new MethodRefData.Build(reference, methodDetails);
      methods.Add(record);
    }
  }

  /**
   * A pool published by `getPool` keeps its content while the buffer goes on
   * accumulating: the next `add` copies the lists before appending.
   */
  method PublishedPoolIsStable(buffer: RefsPoolBuffer, s: string, f: RawField) returns (pool: ReferencePool)
    requires buffer.Valid()
    modifies buffer, buffer.Lists()
    ensures buffer.Valid()
    ensures pool.Contents() == old(buffer.Data())
    ensures buffer.Data() == old(buffer.Data()).(strings := old(buffer.Data()).strings + [s],
                                                 fields := old(buffer.Data()).fields + [f])
  {
    pool := buffer.GetPool();
    buffer.AddString(s);
    buffer.AddField(f);
  }
}
