/**
 * `DexFilter`: selects the dex files of a container.  Preferred dex names
 * can restrict the search to those files (anything else aborts it) or let
 * them through unchecked; defined class names select the files that define
 * one of those classes.  The conditions inherited from `BaseFilter` are the
 * outcome `baseVerified` of `BaseFilter.verify`.
 */
module DexFilters {
  import opened Wrappers
  import opened DexModel
  import DexUtils
  import opened Verdicts
  import SetFacts

  /**
   * A built filter.  `definedClassName` is the cached single element of a
   * one-name `definedClassNames`.
   */
  datatype DexFilter = DexFilter(preferredDexOnly: bool, preferredDexPass: bool,
                                 definedClassNames: Option<set<string>>,
                                 preferredDexNames: Option<seq<string>>,
                                 definedClassName: Option<string>)

  /** What the constructor establishes about `definedClassName`. */
  predicate DefinedNameDerived(f: DexFilter) {
    if f.definedClassNames.Some? && |f.definedClassNames.value| == 1
    then f.definedClassName.Some? && f.definedClassNames.value == {f.definedClassName.value}
    else f.definedClassName.None?
  }

  /** The `anyMatch` over the classes for a single name. */
  function AnyClassNamed(classes: seq<DexClass>, name: string): (r: bool)
    ensures r <==> exists i :: 0 <= i < |classes| && classes[i].classType == name
  {
    if classes == [] then false
    else classes[0].classType == name || AnyClassNamed(classes[1..], name)
  }

  /** The `anyMatch` over the classes for a set of names. */
  function AnyClassIn(classes: seq<DexClass>, names: set<string>): (r: bool)
    ensures r <==> exists i :: 0 <= i < |classes| && classes[i].classType in names
  {
    if classes == [] then false
    else classes[0].classType in names || AnyClassIn(classes[1..], names)
  }

  /** The entry's name is one of the preferred dex names; never true when none are set. */
  function IsPreferred(f: DexFilter, entry: DexEntry): (r: bool)
    ensures r ==> f.preferredDexNames.Some?
    ensures r <==> f.preferredDexNames.Some? &&
                   exists i :: 0 <= i < |f.preferredDexNames.value| && f.preferredDexNames.value[i] == entry.dexName
  {
    f.preferredDexNames.Some? && entry.dexName in f.preferredDexNames.value
  }

  /**
   * `verify`: preferred-only aborts on a non-preferred entry; preferred-pass
   * accepts a preferred entry; then the defined class name, the defined
   * class set, or else the base conditions.
   */
  function Verify(f: DexFilter, entry: DexEntry, baseVerified: bool): (v: Verdict)
    ensures v == Abort <==> f.preferredDexOnly && !IsPreferred(f, entry)
    ensures f.preferredDexPass && IsPreferred(f, entry) ==> v == Match
    ensures f.preferredDexNames.None? ==> (v == Abort <==> f.preferredDexOnly)
  {
    var isPreferred := IsPreferred(f, entry);
    if f.preferredDexOnly && !isPreferred then Abort
    else if f.preferredDexPass && isPreferred then Match
    else if f.definedClassName.Some? then
      (if AnyClassNamed(entry.dexFile.classes, f.definedClassName.value) then Match else NoMatch)
    else if f.definedClassNames.Some? then
      (if AnyClassIn(entry.dexFile.classes, f.definedClassNames.value) then Match else NoMatch)
    else if baseVerified then Match
    else NoMatch
  }

  /**
   * The decision once the preferred-dex rules have let an entry through,
   * stated without the cached `definedClassName`: some class of the entry is
   * defined, or else the base conditions.
   */
  function ClassDecision(f: DexFilter, entry: DexEntry, baseVerified: bool): bool {
    if f.definedClassNames.Some?
    then exists i :: 0 <= i < |entry.dexFile.classes| &&
                     entry.dexFile.classes[i].classType in f.definedClassNames.value
    else baseVerified
  }

  /**
   * The single-name branch and the set branch of `verify` agree: whichever
   * one runs, a filter with defined classes matches iff some class of the
   * entry is defined, and the base conditions are not consulted.
   */
  lemma DefinedClassBranchesAgree(f: DexFilter, entry: DexEntry, baseVerified: bool)
    requires DefinedNameDerived(f)
    requires !(f.preferredDexOnly && !IsPreferred(f, entry))
    requires !(f.preferredDexPass && IsPreferred(f, entry))
    ensures Verify(f, entry, baseVerified) == (if ClassDecision(f, entry, baseVerified) then Match else NoMatch)
    ensures f.definedClassNames.Some? ==> Verify(f, entry, true) == Verify(f, entry, false)
  {
    var classes := entry.dexFile.classes;
    if f.definedClassName.Some? {
      var name := f.definedClassName.value;
      assert f.definedClassNames.value == {name};
      assert AnyClassNamed(classes, name) == AnyClassIn(classes, {name});
    }
  }

  /** The whole of `verify` in terms of the preferred-dex rules and `ClassDecision`. */
  lemma VerifyDecomposed(f: DexFilter, entry: DexEntry, baseVerified: bool)
    requires DefinedNameDerived(f)
    ensures Verify(f, entry, baseVerified) ==
              if f.preferredDexOnly && !IsPreferred(f, entry) then Abort
              else if f.preferredDexPass && IsPreferred(f, entry) then Match
              else if ClassDecision(f, entry, baseVerified) then Match
              else NoMatch
  {
    if !(f.preferredDexOnly && !IsPreferred(f, entry)) && !(f.preferredDexPass && IsPreferred(f, entry)) {
      DefinedClassBranchesAgree(f, entry, baseVerified);
    }
  }

  /** `DexFilter.Builder`. */
  class DexFilterBuilder {
    var preferredDexOnly: bool
    var preferredDexPass: bool
    var definedClassNames: Option<set<string>>
    var preferredDexNames: Option<seq<string>>

    /** `new Builder()`: no conditions. */
    constructor ()
      ensures !preferredDexOnly && !preferredDexPass
      ensures definedClassNames.None? && preferredDexNames.None?
    {
      preferredDexOnly := false;
      preferredDexPass := false;
      definedClassNames := None;
      preferredDexNames := None;
    }

    /** `toBuilder()`: a builder holding a filter's settings. */
    constructor FromFilter(f: DexFilter)
      ensures preferredDexOnly == f.preferredDexOnly && preferredDexPass == f.preferredDexPass
      ensures definedClassNames == f.definedClassNames && preferredDexNames == f.preferredDexNames
    {
      preferredDexOnly := f.preferredDexOnly;
      preferredDexPass := f.preferredDexPass;
      definedClassNames := f.definedClassNames;
      preferredDexNames := f.preferredDexNames;
    }

    /** `build()`: the current settings, with the single defined class name cached. */
    method Build() returns (f: DexFilter)
      ensures f.preferredDexOnly == preferredDexOnly && f.preferredDexPass == preferredDexPass
      ensures f.definedClassNames == definedClassNames && f.preferredDexNames == preferredDexNames
      ensures DefinedNameDerived(f)
      ensures f.definedClassName.Some? ==> f.definedClassName.value in definedClassNames.value
    {
      var single: Option<string> := None;
      if definedClassNames.Some? && |definedClassNames.value| == 1 {
        var name :| name in definedClassNames.value;
        assert definedClassNames.value == {name} by {
          forall other | other in definedClassNames.value
            ensures other == name
          {
            SetFacts.SingletonMembers(definedClassNames.value, other, name);
          }
        }
        single := Some(name);
      }
      f := DexFilter(preferredDexOnly, preferredDexPass, definedClassNames, preferredDexNames, single);
    }

    /** `setPreferredDexNames`: `None` or no names resets. */
    method SetPreferredDexNames(names: Option<seq<string>>)
      modifies this`preferredDexNames
      ensures preferredDexNames.None? <==> names.None? || names.value == []
      ensures preferredDexNames.Some? ==> preferredDexNames == names
    {
      preferredDexNames := if names.None? || names.value == [] then None else names;
    }

    /**
     * `allowPreferredDexOnly`: fails (`ok` false, the `IllegalStateException`)
     * and changes nothing when no preferred names are set.
     */
    method AllowPreferredDexOnly(prefDexOnly: bool) returns (ok: bool)
      modifies this`preferredDexOnly
      ensures ok <==> preferredDexNames.Some?
      ensures preferredDexOnly == if ok then prefDexOnly else old(preferredDexOnly)
    {
      if preferredDexNames.None? {
        return false;
      }
      preferredDexOnly := prefDexOnly;
      ok := true;
    }

    /** `skipPreferredDexCheck`: fails and changes nothing when no preferred names are set. */
    method SkipPreferredDexCheck(skipPrefDexCheck: bool) returns (ok: bool)
      modifies this`preferredDexPass
      ensures ok <==> preferredDexNames.Some?
      ensures preferredDexPass == if ok then skipPrefDexCheck else old(preferredDexPass)
    {
      if preferredDexNames.None? {
        return false;
      }
      preferredDexPass := skipPrefDexCheck;
      ok := true;
    }

    /** `setDefinedClasses`, with the Java names converted to descriptors; `None` or no names resets. */
    method SetDefinedClasses(classes: Option<seq<string>>)
      modifies this`definedClassNames
      ensures definedClassNames.None? <==> classes.None? || classes.value == []
      ensures definedClassNames.Some? ==> forall d :: d in definedClassNames.value <==>
                exists i :: 0 <= i < |classes.value| && d == DexUtils.JavaToDexTypeName(classes.value[i])
    {
      if classes.None? || classes.value == [] {
        definedClassNames := None;
      } else {
        var list := DexUtils.JavaToDexTypeNames(classes.value);
        definedClassNames := Some(set d | d in list);
      }
    }
  }

  /**
   * `ofDefinedClass(clazz)`: a filter that matches exactly the dex files
   * defining that class, and never aborts.
   */
  method OfDefinedClass(clazz: string) returns (f: DexFilter)
    ensures forall e, b :: Verify(f, e, b) == Match <==>
              exists i :: 0 <= i < |e.dexFile.classes| &&
                          e.dexFile.classes[i].classType == DexUtils.JavaToDexTypeName(clazz)
    ensures forall e, b :: Verify(f, e, b) != Abort
  {
    var builder := new DexFilterBuilder();
    builder.SetDefinedClasses(Some([clazz]));
    ghost var descriptor := DexUtils.JavaToDexTypeName(clazz);
    assert descriptor in builder.definedClassNames.value by {
      assert [clazz][0] == clazz;
    }
    assert builder.definedClassNames.value == {descriptor};
    f := builder.Build();
  }

  /** `none()`: a filter that leaves the decision to the base conditions. */
  method NoFilter() returns (f: DexFilter)
    ensures forall e, b :: Verify(f, e, b) == if b then Match else NoMatch
  {
    var builder := new DexFilterBuilder();
    f := builder.Build();
  }

  /**
   * The preferred-dex guard is checked only when a switch is set: a builder
   * that turns preferred-only on and then resets the preferred names builds
   * a filter that aborts on every dex file.
   */
  method PreferredOnlyThenReset(name: string) returns (f: DexFilter)
    ensures f.preferredDexOnly && f.preferredDexNames.None?
    ensures forall e, b :: Verify(f, e, b) == Abort
  {
    var builder := new DexFilterBuilder();
    builder.SetPreferredDexNames(Some([name]));
    var ok := builder.AllowPreferredDexOnly(true);
    assert ok;
    builder.SetPreferredDexNames(None);
    f := builder.Build();
  }
}
