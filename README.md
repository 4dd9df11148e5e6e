# Dexplore reference extraction and filtering, modelled in Dafny

Dexplore searches Android dex files for classes and methods. For that it
needs two things. First, the references a dex file, a class, a field or a
method carries (strings, type descriptors, field and method references). It
collects them into a `ReferencePool`. Second, it needs filters that decide
which dex files and methods to look at. This project models that core:

- `RefsPoolBuffer`: the copy-on-write accumulator a pool is built in.
- `FieldRefData`: the field record of a pool, resolved lazily.
- `DexDecoder`: walks sections, static fields, methods and instruction
  streams into a buffer under a `ReferenceTypes` selector. It can cache
  pools per (entity, selector), and it extracts the numeric literals of
  fields and methods.
- `MethodFilter`: a method filter, with its builder and its "unique" abort.
- `DexFilter`: a dex-file filter with preferred-dex rules and defined
  classes.

Files, in dependency order:

- `wrappers.dfy`: `Option`.
- `dex_model.dfy`: the parsed bytecode as datatypes, plus the selector and
  the abstract pool content `PoolData`.
- `dex_utils.dfy`: the `DexUtils` helpers the core calls.
- `field_ref_data.dfy`: class `FieldRefData`.
- `refs_pool_buffer.dfy`: `RefList`, the records, `ReferencePool` and class
  `RefsPoolBuffer`.
- `decoder_spec.dfy`: what each decode step yields, as functions over
  `PoolData`, with the lemmas about them.
- `dex_decoder.dfy`: the decoding methods, proved against `decoder_spec.dfy`,
  and class `DexDecoder` with its caches.
- `verdicts.dfy`, `set_facts.dfy`: the three-valued filter verdict and two
  set lemmas.
- `method_filter.dfy`, `dex_filter.dfy`: the filters and their builders.

Conventions:

- Every Java `null` is `None`.
- The abort exception of both filters is the verdict `Abort`.
- The `IllegalStateException` of the `DexFilter` builder is an `ok` result of
  `false` that leaves the builder unchanged.
- A published pool is a view of the buffer's own four lists, not a copy, so
  copy-on-write is visible in the model. The published pool is never changed
  afterwards.
- Every decode method writes a fresh buffer. Its `ensures` give the
  resulting pool's content as a function of the input (`DexData`,
  `ClassData`, `MethodData`, `FieldData`).
- The lemmas in `decoder_spec.dfy` state what those functions mean:
  - which strings survive;
  - that invalid references vanish;
  - that a selector projects a pool;
  - how scopes split the methods.

## Model

| member | source | states |
|---|---|---|
| FieldRefs.FieldRefData.Build | dexplore-lib/src/main/java/io/github/neonorbit/dexplore/reference/FieldRefData.java:40-47 | a new record holds its reference unresolved, with no signature, and keeps the details flag |
| FieldRefs.FieldRefData.GetData | dexplore-lib/src/main/java/io/github/neonorbit/dexplore/reference/FieldRefData.java:49-58 | resolves on the first call only (later calls change nothing); always returns the resolved reference: name kept, class and type converted with details, "" without |
| FieldRefs.WithoutDetailsIdentityIsName | dexplore-lib/src/main/java/io/github/neonorbit/dexplore/reference/FieldRefData.java:52-55 | without details, two resolved references are equal iff their names are |
| FieldRefs.FieldRefData.GetName | dexplore-lib/src/main/java/io/github/neonorbit/dexplore/reference/FieldRefData.java:64-67 | returns the original name: resolution keeps it |
| FieldRefs.FieldRefData.GetType | dexplore-lib/src/main/java/io/github/neonorbit/dexplore/reference/FieldRefData.java:73-76 | the Java type name with details, "" without |
| FieldRefs.FieldRefData.GetDeclaringClass | dexplore-lib/src/main/java/io/github/neonorbit/dexplore/reference/FieldRefData.java:82-85 | the Java class name with details, "" without |
| FieldRefs.FieldRefData.Contains | dexplore-lib/src/main/java/io/github/neonorbit/dexplore/reference/FieldRefData.java:90-98 | true iff the value is the name, or details are on and it is the resolved type or class |
| FieldRefs.FieldRefData.GetSignature | dexplore-lib/src/main/java/io/github/neonorbit/dexplore/reference/FieldRefData.java:106-115 | the signature of the resolved data, memoised: once set, a call changes nothing |
| FieldRefs.SignatureForms | dexplore-lib/src/main/java/io/github/neonorbit/dexplore/reference/FieldRefData.java:106-115 | without details the signature is `[blank].name:[blank]`, with details `Class.name:type` in Java names |
| FieldRefs.FieldRefData.HashCode | dexplore-lib/src/main/java/io/github/neonorbit/dexplore/reference/FieldRefData.java:117-120 | the hash of the resolved reference, so records equal by `Equals` hash alike |
| DexUtils.FieldHash | dexplore-lib/src/main/java/io/github/neonorbit/dexplore/reference/FieldRefData.java:117-120 | the hash of a field reference: `String.hashCode` of class, name and type combined with factor 31 in `int` arithmetic |
| FieldRefs.FieldRefData.Equals | dexplore-lib/src/main/java/io/github/neonorbit/dexplore/reference/FieldRefData.java:122-126 | true iff the same object, or another `FieldRefData` with an equal resolved reference; null and objects of any other class are never equal, and comparing with them or with itself changes nothing |
| FieldRefs.FieldRefData.ToString | dexplore-lib/src/main/java/io/github/neonorbit/dexplore/reference/FieldRefData.java:131-134 | returns the signature and memoises it |
| RefsPool.RefsPoolBuffer.constructor | dexplore-lib/src/main/java/io/github/neonorbit/dexplore/RefsPoolBuffer.java:41-48 | four new empty lists; the two detail flags are taken from the selector |
| RefsPool.RefsPoolBuffer.Update | dexplore-lib/src/main/java/io/github/neonorbit/dexplore/RefsPoolBuffer.java:50-58 | after a `getPool`, replaces the four lists by fresh copies with the same records and clears `needsCopy`; otherwise changes nothing |
| RefsPool.RefsPoolBuffer.Resolve | dexplore-lib/src/main/java/io/github/neonorbit/dexplore/RefsPoolBuffer.java:60-66 | every field record is resolved with a memoised signature, every method record resolved; the lists are unchanged |
| RefsPool.RefsPoolBuffer.GetPool | dexplore-lib/src/main/java/io/github/neonorbit/dexplore/RefsPoolBuffer.java:68-72 | publishes a view of the current lists holding the buffer's content and marks them for copying |
| RefsPool.RefsPoolBuffer.GetPoolWith | dexplore-lib/src/main/java/io/github/neonorbit/dexplore/RefsPoolBuffer.java:74-78 | as `GetPool`; with `resolve` every record of the pool is resolved first; without it no field or method record changes |
| RefsPool.RefsPoolBuffer.AddString | dexplore-lib/src/main/java/io/github/neonorbit/dexplore/RefsPoolBuffer.java:80-88 | appends one string at the end of the strings; the other three lists are unchanged; every published pool is unchanged |
| RefsPool.RefsPoolBuffer.AddType | dexplore-lib/src/main/java/io/github/neonorbit/dexplore/RefsPoolBuffer.java:90-93 | appends one type at the end of the types; the rest as for `AddString` |
| RefsPool.RefsPoolBuffer.AddField | dexplore-lib/src/main/java/io/github/neonorbit/dexplore/RefsPoolBuffer.java:95-98 | appends one new, unresolved field record built with `fieldDetails`; the other lists and every published pool are unchanged |
| RefsPool.RefsPoolBuffer.AddMethod | dexplore-lib/src/main/java/io/github/neonorbit/dexplore/RefsPoolBuffer.java:100-103 | appends one new method record built with `methodDetails`; the other lists and every published pool are unchanged |
| RefsPool.PublishedPoolIsStable | dexplore-lib/src/main/java/io/github/neonorbit/dexplore/RefsPoolBuffer.java:50-72 | a pool returned by `getPool` keeps its content while later adds extend the buffer |
| RefsPool.EmptyPool | dexplore-lib/src/main/java/io/github/neonorbit/dexplore/DexDecoder.java:106 | a new pool with no content |
| DecoderSpec.ReferenceData | dexplore-lib/src/main/java/io/github/neonorbit/dexplore/DexDecoder.java:204-221 | a reference yields at most one record, of its own kind and only when that kind is selected; an invalid reference yields nothing |
| DecoderSpec.InstructionData | dexplore-lib/src/main/java/io/github/neonorbit/dexplore/DexDecoder.java:195-200 | an instruction with a reference yields that reference's data, then its second reference's when it has one; an instruction without a reference yields nothing |
| DecoderSpec.InstructionsData | dexplore-lib/src/main/java/io/github/neonorbit/dexplore/DexDecoder.java:194-201 | the instructions' data concatenated in stream order |
| DecoderSpec.MethodData | dexplore-lib/src/main/java/io/github/neonorbit/dexplore/DexDecoder.java:189-202 | the records of the method's instructions in order, each instruction's first reference before its second; nothing without an implementation or with no kind selected |
| DecoderSpec.MethodsData | dexplore-lib/src/main/java/io/github/neonorbit/dexplore/DexDecoder.java:151 | the data of each method in turn, concatenated in order |
| DecoderSpec.MethodsInScope | dexplore-lib/src/main/java/io/github/neonorbit/dexplore/DexDecoder.java:155-163 | ALL visits the direct then the virtual methods, DIRECT and VIRTUAL their own list, any other scope none; never a method outside the class |
| DecoderSpec.FieldStrings | dexplore-lib/src/main/java/io/github/neonorbit/dexplore/DexDecoder.java:173-179 | the field's initial value when it is a STRING, else nothing |
| DecoderSpec.StaticStrings | dexplore-lib/src/main/java/io/github/neonorbit/dexplore/DexDecoder.java:165-171 | the STRING initial values of the static fields, in field order |
| DecoderSpec.ClassData | dexplore-lib/src/main/java/io/github/neonorbit/dexplore/DexDecoder.java:146-171 | the static fields' string initial values when strings are selected, then the data of every method in scope |
| DecoderSpec.FieldData | dexplore-lib/src/main/java/io/github/neonorbit/dexplore/DexDecoder.java:104-110 | a pool holding the field's STRING initial value, if it has one, and nothing else |
| DecoderSpec.IdentifierNames | dexplore-lib/src/main/java/io/github/neonorbit/dexplore/DexDecoder.java:135-137 | the set `rm`: every type descriptor and every field and method name of the file |
| DecoderSpec.LiteralStrings | dexplore-lib/src/main/java/io/github/neonorbit/dexplore/DexDecoder.java:138 | the strings of the section that are not in `rm`, in section order |
| DecoderSpec.DexData | dexplore-lib/src/main/java/io/github/neonorbit/dexplore/DexDecoder.java:130-144 | the literal strings, the type references and the whole field and method sections, each only when its kind is selected |
| DecoderSpec.ReferenceProjection | dexplore-lib/src/main/java/io/github/neonorbit/dexplore/DexDecoder.java:204-221 | a reference's contribution under a selector is its contribution under any larger selector, restricted to the selected kinds |
| DecoderSpec.InvalidInstructionEmpty | dexplore-lib/src/main/java/io/github/neonorbit/dexplore/DexDecoder.java:207-220 | an instruction whose references all fail validation contributes nothing |
| DecoderSpec.InvalidReferencesSkipped | dexplore-lib/src/main/java/io/github/neonorbit/dexplore/DexDecoder.java:194-220 | an instruction with only invalid references is skipped: the rest of the stream yields exactly what it yields without it |
| DecoderSpec.InstructionProjection | dexplore-lib/src/main/java/io/github/neonorbit/dexplore/DexDecoder.java:195-200 | an instruction's first and second references projected to a smaller selector give what that selector takes |
| DecoderSpec.InstructionsProjection | dexplore-lib/src/main/java/io/github/neonorbit/dexplore/DexDecoder.java:194-201 | an instruction stream under a selector is the stream under a larger selector, restricted |
| DecoderSpec.InstructionsDataAppend | dexplore-lib/src/main/java/io/github/neonorbit/dexplore/DexDecoder.java:194-201 | decoding a concatenated stream appends the two streams' records in order |
| DecoderSpec.MethodProjection | dexplore-lib/src/main/java/io/github/neonorbit/dexplore/DexDecoder.java:189-202 | a method's pool under a selector is its pool under a larger selector, restricted |
| DecoderSpec.MethodsProjection | dexplore-lib/src/main/java/io/github/neonorbit/dexplore/DexDecoder.java:151 | the same for a sequence of methods |
| DecoderSpec.MethodsDataAppend | dexplore-lib/src/main/java/io/github/neonorbit/dexplore/DexDecoder.java:151 | decoding two method lists in turn appends their records in order |
| DecoderSpec.MethodsDataScopeFree | dexplore-lib/src/main/java/io/github/neonorbit/dexplore/DexDecoder.java:155-163 | the scope chooses which methods are visited, not what each visited method yields |
| DecoderSpec.ScopeSplit | dexplore-lib/src/main/java/io/github/neonorbit/dexplore/DexDecoder.java:155-163 | scope ALL yields DIRECT's pool followed by the virtual methods' records; NONE yields only the static-field strings |
| DecoderSpec.ClassProjection | dexplore-lib/src/main/java/io/github/neonorbit/dexplore/DexDecoder.java:146-153 | a class pool under a selector is its pool under a larger selector with the same scope, restricted |
| DecoderSpec.ClassDataSelectedKinds | dexplore-lib/src/main/java/io/github/neonorbit/dexplore/DexDecoder.java:146-171 | a class pool holds only selected kinds; a selector with no kind yields the empty pool |
| DecoderSpec.StaticStringsMembership | dexplore-lib/src/main/java/io/github/neonorbit/dexplore/DexDecoder.java:165-179 | a string comes from the static fields iff some static field is initialised with exactly that STRING value |
| DecoderSpec.DexProjection | dexplore-lib/src/main/java/io/github/neonorbit/dexplore/DexDecoder.java:130-144 | a dex pool under a selector is the all-kinds dex pool restricted to its kinds; no kind gives the empty pool |
| DecoderSpec.LiteralStringsMembership | dexplore-lib/src/main/java/io/github/neonorbit/dexplore/DexDecoder.java:138 | a string survives the filter iff it is in the section and not in `rm` |
| DecoderSpec.DexStrings | dexplore-lib/src/main/java/io/github/neonorbit/dexplore/DexDecoder.java:134-139 | a dex-level string is emitted iff strings are selected, it is in the string section, and it is not a type, a field name or a method name; string-section order is kept across any split |
| DecoderSpec.IdentifierStringExcludedOnlyAtDexLevel | dexplore-lib/src/main/java/io/github/neonorbit/dexplore/DexDecoder.java:134-171 | a string equal to a method name is dropped from the dex pool (whose method section still holds the method) but kept in a class pool through a static-field constant |
| DecoderSpec.ToSigned32 | dexplore-lib/src/main/java/io/github/neonorbit/dexplore/DexDecoder.java:246-247 | the signed `int` congruent to a 32-bit pattern |
| DecoderSpec.ToSigned64 | dexplore-lib/src/main/java/io/github/neonorbit/dexplore/DexDecoder.java:249-250 | the signed `long` congruent to a 64-bit pattern |
| DecoderSpec.FieldLiteral | dexplore-lib/src/main/java/io/github/neonorbit/dexplore/DexDecoder.java:233-253 | a value exists iff the constant is SHORT, INT, LONG, FLOAT or DOUBLE; short and int are sign-extended, long kept, float's 32-bit pattern sign-extended, double's pattern taken |
| DecoderSpec.FieldLiterals | dexplore-lib/src/main/java/io/github/neonorbit/dexplore/DexDecoder.java:232-253 | the set of the canonical literals of the fields that have a numeric initial value |
| DecoderSpec.MethodLiterals | dexplore-lib/src/main/java/io/github/neonorbit/dexplore/DexDecoder.java:222-230 | the wide literals of the method's wide-literal instructions; empty without an implementation |
| DecoderSpec.ClassLiterals | dexplore-lib/src/main/java/io/github/neonorbit/dexplore/DexDecoder.java:117-122 | the static fields' literals together with the wide literals of every direct and virtual method |
| DecoderSpec.CanonicalLiterals | dexplore-lib/src/main/java/io/github/neonorbit/dexplore/DexDecoder.java:236-252 | concrete canonical forms: 1.5f, 1.5, 7, -2, -1.0f, and none for a string or a missing value |
| Decoder.DecodeReference | dexplore-lib/src/main/java/io/github/neonorbit/dexplore/DexDecoder.java:204-221 | appends exactly `ReferenceData`: a valid reference of a selected kind as one record, nothing for an invalid one; no failure escapes |
| Decoder.DecodeInstruction | dexplore-lib/src/main/java/io/github/neonorbit/dexplore/DexDecoder.java:195-200 | appends the instruction's reference, then its second reference |
| Decoder.DecodeMethodReferencesInto | dexplore-lib/src/main/java/io/github/neonorbit/dexplore/DexDecoder.java:189-202 | appends `MethodData`: nothing without an implementation or a selected kind, else every instruction's records in order |
| Decoder.DecodeMethodsInto | dexplore-lib/src/main/java/io/github/neonorbit/dexplore/DexDecoder.java:151 | appends every visited method's records in order |
| Decoder.DecodeFieldReferences | dexplore-lib/src/main/java/io/github/neonorbit/dexplore/DexDecoder.java:173-179 | appends the STRING initial value, nothing for any other value or none |
| Decoder.DecodeClassFieldReferences | dexplore-lib/src/main/java/io/github/neonorbit/dexplore/DexDecoder.java:165-171 | appends the static fields' strings only when strings are selected |
| Decoder.AddLiteralStrings | dexplore-lib/src/main/java/io/github/neonorbit/dexplore/DexDecoder.java:138 | appends the strings not in `rm`, in order |
| Decoder.AddFields | dexplore-lib/src/main/java/io/github/neonorbit/dexplore/DexDecoder.java:140 | appends the whole field section |
| Decoder.AddMethods | dexplore-lib/src/main/java/io/github/neonorbit/dexplore/DexDecoder.java:141 | appends the whole method section |
| Decoder.AddTypes | dexplore-lib/src/main/java/io/github/neonorbit/dexplore/DexDecoder.java:142 | appends every type reference |
| Decoder.IdentifierNamesOf | dexplore-lib/src/main/java/io/github/neonorbit/dexplore/DexDecoder.java:135-137 | `rm` is exactly the type descriptors plus every field and method name |
| Decoder.DecodeDexStrings | dexplore-lib/src/main/java/io/github/neonorbit/dexplore/DexDecoder.java:134-139 | appends the dex pool's strings: none unless strings are selected |
| Decoder.DecodeDexSections | dexplore-lib/src/main/java/io/github/neonorbit/dexplore/DexDecoder.java:140-142 | appends the field, method and type sections, each in full only when its kind is selected |
| Decoder.DecodeDexReferences | dexplore-lib/src/main/java/io/github/neonorbit/dexplore/DexDecoder.java:130-144 | a fresh pool holding `DexData` with the selector's detail flags, fully resolved when asked |
| Decoder.DecodeClassReferences | dexplore-lib/src/main/java/io/github/neonorbit/dexplore/DexDecoder.java:146-153 | a fresh pool holding `ClassData`: static-field strings, then the methods of the scope |
| Decoder.DecodeMethodReferences | dexplore-lib/src/main/java/io/github/neonorbit/dexplore/DexDecoder.java:181-187 | a fresh pool holding `MethodData` |
| Decoder.DecodeFullyDex | dexplore-lib/src/main/java/io/github/neonorbit/dexplore/DexDecoder.java:94-97 | every kind of the file with both details, every record resolved |
| Decoder.DecodeFullyClass | dexplore-lib/src/main/java/io/github/neonorbit/dexplore/DexDecoder.java:99-102 | every kind of the class over all its methods, every record resolved |
| Decoder.DecodeFullyField | dexplore-lib/src/main/java/io/github/neonorbit/dexplore/DexDecoder.java:104-110 | the empty pool without an initial value, else the field's STRING value, resolved |
| Decoder.DecodeFullyMethod | dexplore-lib/src/main/java/io/github/neonorbit/dexplore/DexDecoder.java:112-115 | every kind of the method, every record resolved |
| Decoder.AddMethodLiterals | dexplore-lib/src/main/java/io/github/neonorbit/dexplore/DexDecoder.java:223-231 | the set grows by exactly the method's wide literals; nothing without an implementation |
| Decoder.AddFieldLiteral | dexplore-lib/src/main/java/io/github/neonorbit/dexplore/DexDecoder.java:233-253 | the set grows by exactly the canonical literal of a numeric initial value, if any |
| Decoder.DecodeClassNumberLiterals | dexplore-lib/src/main/java/io/github/neonorbit/dexplore/DexDecoder.java:117-122 | the union of the static fields' literals and every method's wide literals |
| Decoder.DecodeMethodNumberLiterals | dexplore-lib/src/main/java/io/github/neonorbit/dexplore/DexDecoder.java:124-128 | exactly the method's wide literals |
| Decoder.DexDecoder.constructor | dexplore-lib/src/main/java/io/github/neonorbit/dexplore/DexDecoder.java:58-62 | caching as configured, both caches empty |
| Decoder.DexDecoder.StoreDex | dexplore-lib/src/main/java/io/github/neonorbit/dexplore/DexDecoder.java:71 | the dex cache gains the pool under its key and stays consistent with decoding |
| Decoder.DexDecoder.StoreClass | dexplore-lib/src/main/java/io/github/neonorbit/dexplore/DexDecoder.java:83 | the class cache gains the pool under its key and stays consistent with decoding |
| Decoder.DexDecoder.DecodeEntry | dexplore-lib/src/main/java/io/github/neonorbit/dexplore/DexDecoder.java:64-74 | the pool always holds `DexData`; no kind or no cache: a fresh pool and the cache untouched; a hit returns the cached pool and changes nothing; a miss decodes afresh and stores under (entry, selector) |
| Decoder.DexDecoder.DecodeClass | dexplore-lib/src/main/java/io/github/neonorbit/dexplore/DexDecoder.java:76-86 | the same for classes with `ClassData` |
| Decoder.DexDecoder.DecodeMethod | dexplore-lib/src/main/java/io/github/neonorbit/dexplore/DexDecoder.java:88-92 | always a fresh pool holding `MethodData`; neither cache is read or written |
| MethodFilters.MatchAllMatchesEverything | dexplore-lib/src/main/java/io/github/neonorbit/dexplore/filter/MethodFilter.java:48-49 | `MATCH_ALL` is built from a default builder, is not unique, and matches every method whatever the base outcome |
| MethodFilters.IsDefault | dexplore-lib/src/main/java/io/github/neonorbit/dexplore/filter/MethodFilter.java:180-191 | default iff every setting equals that of a fresh builder |
| MethodFilters.IsUnique | dexplore-lib/src/main/java/io/github/neonorbit/dexplore/filter/MethodFilter.java:62-63 | unique iff exactly one method name and either a parameter list or parameter size 0 |
| MethodFilters.NewFilter | dexplore-lib/src/main/java/io/github/neonorbit/dexplore/filter/MethodFilter.java:61-74 | a filter holding the builder's settings, unique as `IsUnique` says, never the `MATCH_ALL` instance |
| MethodFilters.SignatureMatches | dexplore-lib/src/main/java/io/github/neonorbit/dexplore/filter/MethodFilter.java:97-105 | accepts iff the name is among the set names, the parameter types equal the set list, and without a list the count equals a non-negative size |
| MethodFilters.ConditionsHold | dexplore-lib/src/main/java/io/github/neonorbit/dexplore/filter/MethodFilter.java:82-90 | required modifier bits all set, skipped bits all clear (each unless `NEG`), return type, annotations, annotation values and number literals as set, and the base conditions |
| MethodFilters.Verify | dexplore-lib/src/main/java/io/github/neonorbit/dexplore/filter/MethodFilter.java:76-95 | Match iff `MATCH_ALL`, or signature and every condition hold; Abort iff unique, signature matched and a condition failed; a non-unique filter never aborts; a failed signature is NoMatch |
| MethodFilters.MatchMeansConfigured | dexplore-lib/src/main/java/io/github/neonorbit/dexplore/filter/MethodFilter.java:82-90 | a match by a built filter implies each configured condition: name, parameter list or count, modifier bits, skipped bits, return type, number literals, base |
| MethodFilters.NameMismatchRejects | dexplore-lib/src/main/java/io/github/neonorbit/dexplore/filter/MethodFilter.java:97-99 | a name outside the name set gives NoMatch, even for a unique filter |
| MethodFilters.ParameterListOverridesSize | dexplore-lib/src/main/java/io/github/neonorbit/dexplore/filter/MethodFilter.java:100-104 | with a parameter list set, the parameter size has no effect on the signature check |
| MethodFilters.UniquePinsSignature | dexplore-lib/src/main/java/io/github/neonorbit/dexplore/filter/MethodFilter.java:62-63 | two methods passing a unique filter's signature check share name and parameter list |
| MethodFilters.UniqueAbortIsTheMethod | dexplore-lib/src/main/java/io/github/neonorbit/dexplore/filter/MethodFilter.java:91-93 | an abort concerns the one signature the unique filter denotes: any other method passing the check has the same name and parameters |
| MethodFilters.UniqueAbortIgnoresReturnType | dexplore-lib/src/main/java/io/github/neonorbit/dexplore/filter/MethodFilter.java:91-93 | a unique filter that also asks for a return type aborts on a method of the same name and parameters but another return type, while it matches the method with the asked-for return type |
| MethodFilters.CombinedModifiers | dexplore-lib/src/main/java/io/github/neonorbit/dexplore/filter/MethodFilter.java:83 | modifiers combined with a bitwise or are required together, unless the combination is the all-ones `NEG` |
| MethodFilters.CombinedSkipModifiers | dexplore-lib/src/main/java/io/github/neonorbit/dexplore/filter/MethodFilter.java:84 | skipped modifiers combined with a bitwise or each exclude a method |
| MethodFilters.NumberLiteral | dexplore-lib/src/main/java/io/github/neonorbit/dexplore/filter/MethodFilter.java:324-327 | a float's `int` bits widened, a double's bits, or `longValue()` |
| MethodFilters.NumberLiterals | dexplore-lib/src/main/java/io/github/neonorbit/dexplore/filter/MethodFilter.java:324-328 | the set holds exactly the numbers' keys |
| MethodFilters.NumberLiteralAgreesWithDecoder | dexplore-lib/src/main/java/io/github/neonorbit/dexplore/filter/MethodFilter.java:323-331 | a number given to the filter has the same key as the field constant of that value (float, double, int, long) |
| MethodFilters.MethodFilterBuilder.constructor | dexplore-lib/src/main/java/io/github/neonorbit/dexplore/filter/MethodFilter.java:153-164 | every setting at its default: flags and size `NEG`, the rest unset |
| MethodFilters.MethodFilterBuilder.FromFilter | dexplore-lib/src/main/java/io/github/neonorbit/dexplore/filter/MethodFilter.java:166-177 | the builder holds exactly the filter's settings |
| MethodFilters.MethodFilterBuilder.Build | dexplore-lib/src/main/java/io/github/neonorbit/dexplore/filter/MethodFilter.java:179-201 | `MATCH_ALL` iff every setting is at its default, and then every method matches; otherwise a filter over the settings, unique iff one name and (a parameter list or size 0) |
| MethodFilters.MethodFilterBuilder.SetMethodNames | dexplore-lib/src/main/java/io/github/neonorbit/dexplore/filter/MethodFilter.java:209-213 | no names resets the condition; otherwise exactly the given names |
| MethodFilters.MethodFilterBuilder.SetModifiers | dexplore-lib/src/main/java/io/github/neonorbit/dexplore/filter/MethodFilter.java:227-230 | the required modifier bits become the argument |
| MethodFilters.MethodFilterBuilder.SkipModifiers | dexplore-lib/src/main/java/io/github/neonorbit/dexplore/filter/MethodFilter.java:239-242 | the skipped modifier bits become the argument |
| MethodFilters.MethodFilterBuilder.SetReturnType | dexplore-lib/src/main/java/io/github/neonorbit/dexplore/filter/MethodFilter.java:250-253 | unset for `None`, else the descriptor of the Java name |
| MethodFilters.MethodFilterBuilder.SetParamSize | dexplore-lib/src/main/java/io/github/neonorbit/dexplore/filter/MethodFilter.java:261-264 | the parameter size becomes the argument |
| MethodFilters.MethodFilterBuilder.SetParamList | dexplore-lib/src/main/java/io/github/neonorbit/dexplore/filter/MethodFilter.java:276-279 | unset for `None`, else the descriptors of the names in order |
| MethodFilters.MethodFilterBuilder.ContainsAnnotations | dexplore-lib/src/main/java/io/github/neonorbit/dexplore/filter/MethodFilter.java:288-292 | no names resets; otherwise exactly the descriptors of the names |
| MethodFilters.MethodFilterBuilder.ContainsAnnotationValues | dexplore-lib/src/main/java/io/github/neonorbit/dexplore/filter/MethodFilter.java:310-314 | no values resets; otherwise exactly the values |
| MethodFilters.MethodFilterBuilder.SetNumbers | dexplore-lib/src/main/java/io/github/neonorbit/dexplore/filter/MethodFilter.java:323-331 | no numbers resets; otherwise the set of their 64-bit keys |
| MethodFilters.MethodFilterBuilder.SetBaseConditions | dexplore-lib/src/main/java/io/github/neonorbit/dexplore/filter/MethodFilter.java:181 | a base setting makes the builder non-default |
| MethodFilters.OfMethod | dexplore-lib/src/main/java/io/github/neonorbit/dexplore/filter/MethodFilter.java:122-125 | a unique filter whose signature check accepts exactly the methods with that name and that converted parameter list |
| DexFilters.AnyClassNamed | dexplore-lib/src/main/java/io/github/neonorbit/dexplore/filter/DexFilter.java:65-66 | true iff some class has that type |
| DexFilters.AnyClassIn | dexplore-lib/src/main/java/io/github/neonorbit/dexplore/filter/DexFilter.java:68-69 | true iff some class's type is in the set |
| DexFilters.IsPreferred | dexplore-lib/src/main/java/io/github/neonorbit/dexplore/filter/DexFilter.java:57-58 | preferred iff preferred names are set and the entry's name is one of them |
| DexFilters.Verify | dexplore-lib/src/main/java/io/github/neonorbit/dexplore/filter/DexFilter.java:54-73 | Abort iff preferred-only and the entry is not preferred, before any other check; preferred-pass accepts a preferred entry; with no preferred names set, no entry is preferred |
| DexFilters.DefinedClassBranchesAgree | dexplore-lib/src/main/java/io/github/neonorbit/dexplore/filter/DexFilter.java:64-69 | the single-name and set branches both decide "some class's type is defined"; with defined classes the base outcome is not consulted |
| DexFilters.VerifyDecomposed | dexplore-lib/src/main/java/io/github/neonorbit/dexplore/filter/DexFilter.java:54-73 | `verify` is the preferred-dex rules followed by the class decision, independently of the cached single name |
| DexFilters.DexFilterBuilder.constructor | dexplore-lib/src/main/java/io/github/neonorbit/dexplore/filter/DexFilter.java:93-98 | both switches off, no names set |
| DexFilters.DexFilterBuilder.FromFilter | dexplore-lib/src/main/java/io/github/neonorbit/dexplore/filter/DexFilter.java:100-106 | the builder holds the filter's settings |
| DexFilters.DexFilterBuilder.Build | dexplore-lib/src/main/java/io/github/neonorbit/dexplore/filter/DexFilter.java:40-52 | the settings carried over; `definedClassName` is set iff exactly one defined class name, and is that name |
| DexFilters.DexFilterBuilder.SetPreferredDexNames | dexplore-lib/src/main/java/io/github/neonorbit/dexplore/filter/DexFilter.java:118-124 | `None` or no names resets; otherwise the names |
| DexFilters.DexFilterBuilder.AllowPreferredDexOnly | dexplore-lib/src/main/java/io/github/neonorbit/dexplore/filter/DexFilter.java:126-132 | fails and changes nothing iff no preferred names are set; otherwise sets the switch |
| DexFilters.DexFilterBuilder.SkipPreferredDexCheck | dexplore-lib/src/main/java/io/github/neonorbit/dexplore/filter/DexFilter.java:134-140 | fails and changes nothing iff no preferred names are set; otherwise sets the switch |
| DexFilters.DexFilterBuilder.SetDefinedClasses | dexplore-lib/src/main/java/io/github/neonorbit/dexplore/filter/DexFilter.java:142-146 | `None` or no names resets; otherwise exactly the descriptors of the names |
| DexFilters.OfDefinedClass | dexplore-lib/src/main/java/io/github/neonorbit/dexplore/filter/DexFilter.java:75-78 | matches exactly the dex files defining that class, never aborts |
| DexFilters.NoFilter | dexplore-lib/src/main/java/io/github/neonorbit/dexplore/filter/DexFilter.java:80-82 | leaves the decision to the base conditions |
| DexFilters.PreferredOnlyThenReset | dexplore-lib/src/main/java/io/github/neonorbit/dexplore/filter/DexFilter.java:118-132 | the guard is checked only when the switch is set: switching preferred-only on and then resetting the names builds a filter that aborts on every dex file |

## Left out

- dexlib2 parsing. Dex files, classes, fields, methods, instructions and references are datatypes given as inputs. `validateReference` is the `valid` bit of a reference.
- The name conversions `dexToJavaTypeName` and `javaToDexTypeName` are stand-ins that treat every name as a class name: primitive and array names are wrapped like class names. No proof depends on how they convert. `DexUtils.getFieldSignature` is plain concatenation.
- `Float.floatToIntBits` and `Double.doubleToLongBits`. FLOAT and DOUBLE constants and numbers carry their IEEE-754 bit patterns, so NaN canonicalisation is not modelled. Only the widening to `long` is.
- `ReferencePool`, `RefsPoolCache`, `StringRefData`, `TypeRefData`, `MethodRefData`, `ReferenceTypes`, `BaseFilter` and `FilterUtils` are not part of this model:
  - The pool is a view of four lists.
  - The string and type records are values, so `resolve` has nothing to do for them.
  - A method record is its details flag and a one-time `resolved` flag.
  - The cache is a map.
  - `hasNone` means that no kind is selected.
  - `BaseFilter.verify` is the boolean parameter `baseVerified`.
  - The annotation checks are set containment over the method's annotation types and values.
- `Decoder.DexDecoder.DecodeEntry` and `DecodeClass` key their caches by the value of (entity, selector). Two equal entities share a cached pool, which object identity might not.
- `RefsPool.EmptyPool` returns a new empty pool each time, where `ReferencePool.emptyPool()` may return a shared one.
- The private two-argument `decodeNumberLiterals` methods fill a shared `Set<Long>` in place. Here `Decoder.AddMethodLiterals` and `Decoder.AddFieldLiteral` take the set and return the grown one, so aliasing of that set is not captured.
- Concurrency: the thread-safety of the caches and of lazy resolution is out of scope. `DexLog` on an invalid reference is a no-op.
- Builder setters return nothing instead of `this`, so call chains are sequences of calls on the same builder.
- Null elements inside varargs, which `Utils.nonNullList` drops, cannot occur: sequences have no null.
- `Utils.isSingle` is taken to mean a non-null set of exactly one element. `Utils.optimizedSet` and `Utils.optimizedList` keep contents.
- Modifier flags are Java `int`s read as 32-bit patterns; `NEG_FLAGS` is the pattern of `-1`.
- `MethodFilters.NumberLiteral` covers `Byte`, `Short`, `Integer`, `Long`, `Float` and `Double`. Other `Number` subclasses (`longValue()` of a `BigInteger`, say) are not modelled.
- `MethodFilters.CombinedModifiers`: stated only for combinations that are not all ones, because the all-ones value switches the condition off.
- `FieldRefs.FieldRefData.GetSignature` and `toString`: the signature is built from the resolved data, that is from Java names with details on. This follows the code; a description of signatures as raw descriptors would not.
- `DexUtils.StringHash` hashes Dafny `char`s, which are Unicode scalar values, where `String.hashCode` hashes UTF-16 code units. The two agree on strings without supplementary characters only.
- `FieldRefs.FieldRefData.HashCode` inherits that: its value is `String.hashCode` arithmetic over scalar values, and the dexlib2 hash of a field reference is taken to be that three-string combination.
- `DexFilters.DexFilterBuilder.SetPreferredDexNames` stores the names as a value. `Arrays.asList` stores a view of the caller's array, so in the source a later write to that array changes the builder and any filter built from it; that aliasing is not captured.
