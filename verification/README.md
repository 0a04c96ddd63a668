# Morphia mapping options and update operators, in Dafny

This project models two sequential pieces of Morphia, the Java object-document mapper for MongoDB:

- **`MapperOptions.Builder`** (`core/src/main/java/dev/morphia/mapping/MapperOptions.java`). This is the staging object for mapping options. Once `build()` has produced a snapshot, every setter except `fetchReferencesViaAggregation` throws `MappingException`. `build()` creates the immutable `MapperOptions` once, caches it, and returns the cached one on every later call. At build time the convention list is resolved all-or-nothing. If no convention was added, the list is `MorphiaDefaultsConvention`, then `FieldDiscovery` or `MethodDiscovery`, then `ConfigureProperties`, then every service-loaded convention in load order. Otherwise it is exactly the added list.
- **The update-operator factories** (`morphia/src/main/java/dev/morphia/query/experimental/updates/UpdateOperators.java`). Each static factory builds one operator value from its arguments, usually a field name and a value. `set(Object)` and `setOnInsert(Map)` act on the whole document and take no field, and `pop`, `unset`, `currentDate`, `inc(f)` and `dec(f)` take no value. `dec(field, Number)` negates Integer and Long arguments in 64-bit arithmetic and Float and Double arguments in double arithmetic. It rejects every other `Number` with `IllegalArgumentException`.

Modules and files:

| file | module | contents |
|---|---|---|
| `wrappers.dfy` | `Wrappers` | `Option` (a nullable reference), `Result` (return or throw) |
| `java_numbers.dfy` | `JavaNumbers` | Java integer widths, `long` wrap-around, the sign of a `double`, boxed `Number` kinds |
| `mapper_options.dfy` | `Mapping` | the option value types, `MapperOptions`, `Builder`, setters (`Setter`, `Apply`), `Build`, convention resolution, the two presets, the copy constructor |
| `builder_lifecycle.dfy` | `BuilderLifecycle` | a builder's life as a sequence of calls (`Run`), plus the lemmas about the lock, the snapshot, the setters and the presets |
| `update_operators.dfy` | `Updates` | the operator datatype, one function per factory overload, and lemmas about tags, `dec` and `push` |
| `update_calls.dfy` | `UpdateCalls` | the factory API as data (`FactoryCall`), `Make`, and its inverse `Recover` |

The Java builder is mutable and its setters return `this`. Here it is an immutable record. A setter call is `Apply(b, s)`, which returns the next builder or the exception. `Build(b, plugins)` returns the next builder and the snapshot. The lock is the cached snapshot itself (`options`).

## Model

| member | source | states |
|---|---|---|
| `Mapping.Apply` | core/src/main/java/dev/morphia/mapping/MapperOptions.java:298-556 | A setter throws if and only if the builder is locked and the setter is not `fetchReferencesViaAggregation`. A setter never locks or unlocks the builder. |
| `Mapping.Assign` | core/src/main/java/dev/morphia/mapping/MapperOptions.java:319-550 | The assignment a setter makes once past the lock check leaves the cached snapshot alone. |
| `BuilderLifecycle.SetterFrame` | core/src/main/java/dev/morphia/mapping/MapperOptions.java:319-550 | A successful setter call writes its value to its one target field. Every other field, and the lock, are unchanged. `addConvention` appends to the list. |
| `BuilderLifecycle.AssignFrame` | core/src/main/java/dev/morphia/mapping/MapperOptions.java:319-550 | The same frame property for one field at a time, with the deprecated setters reduced to their targets. |
| `BuilderLifecycle.SetThenBuildReadsBack` | core/src/main/java/dev/morphia/mapping/MapperOptions.java:118-236 | On an unlocked builder, every setter succeeds. After `build()`, the snapshot's field holds the value the setter was given. For `addConvention` that value is the list with the new convention appended, which `build()` keeps because it is non-empty. For the class loader this is the stored field, not what `getClassLoader()` returns for a null loader. |
| `Mapping.ResolveConventions` | core/src/main/java/dev/morphia/mapping/MapperOptions.java:558-571 | With added conventions the result is exactly the added list. Without them it is `MorphiaDefaultsConvention`, then `FieldDiscovery` (if and only if the mode is `FIELDS`) or `MethodDiscovery` (if and only if it is `METHODS`), then `ConfigureProperties`, then the plugins in order. |
| `Mapping.Snapshot` | core/src/main/java/dev/morphia/mapping/MapperOptions.java:53-71 | The private constructor copies every builder field to the same snapshot field, and the convention list is the resolved one. |
| `Mapping.Build` | core/src/main/java/dev/morphia/mapping/MapperOptions.java:308-313 | After `build()` the builder is locked and holds the returned snapshot. On a locked builder, `build()` changes nothing and returns the cached snapshot. On an unlocked one, it returns the builder's fields with the resolved conventions. |
| `BuilderLifecycle.BuildIsIdempotent` | core/src/main/java/dev/morphia/mapping/MapperOptions.java:308-313 | A second `build()` returns the same builder and the same snapshot, whatever the service loader would find the second time. |
| `Mapping.DefaultOptions` | core/src/main/java/dev/morphia/mapping/MapperOptions.java:249-265 | `MapperOptions.DEFAULT` (line 32), a fresh builder built, has the built-in conventions with field discovery followed by the plugins, UTC dates, key `"_t"`, simple-name discriminator, camel-case collections, identity properties, STANDARD UUIDs, the default query factory, no class loader, field property discovery, and all seven boolean options false. |
| `BuilderLifecycle.LockedRun` | core/src/main/java/dev/morphia/mapping/MapperOptions.java:552-556 | On a locked builder, a call sequence throws if and only if it contains a lock-checked setter. If it does not throw, the snapshot is untouched and only `fetchReferencesViaAggregation` may have changed. |
| `BuilderLifecycle.RunFailsIffSetterAfterBuild` | core/src/main/java/dev/morphia/mapping/MapperOptions.java:552-556 | From an unlocked builder, a call sequence throws if and only if some lock-checked setter comes after some `build()`. So before `build()`, setters never fail. |
| `BuilderLifecycle.SnapshotIsFirstBuild` | core/src/main/java/dev/morphia/mapping/MapperOptions.java:308-313 | Setters before the first `build()` succeed and leave the builder unlocked. Whatever comes after, the final cached snapshot is the one made from the builder as it stood at that first `build()`. |
| `BuilderLifecycle.AddAllAppends` | core/src/main/java/dev/morphia/mapping/MapperOptions.java:298-303 | Successive `addConvention` calls on an unlocked builder append their conventions in call order. |
| `BuilderLifecycle.AddedConventionsReplaceDefaults` | core/src/main/java/dev/morphia/mapping/MapperOptions.java:558-571 | Adding conventions to a fresh builder and building yields exactly the added list. With none added, the result is the built-ins followed by the plugins. |
| `BuilderLifecycle.FetchAfterBuildKeepsSnapshot` | core/src/main/java/dev/morphia/mapping/MapperOptions.java:430-433 | After `build()`, `fetchReferencesViaAggregation` still succeeds and changes the builder field. A later `build()` still returns the old snapshot. |
| `BuilderLifecycle.DateFormForwards` | core/src/main/java/dev/morphia/mapping/MapperOptions.java:352-356 | `dateForm(d)` has the same outcome as `dateStorage(d)`, on locked and unlocked builders alike. |
| `BuilderLifecycle.FieldNamingForwards` | core/src/main/java/dev/morphia/mapping/MapperOptions.java:443-447 | `fieldNaming(n)` has the same outcome as `propertyNaming(n)`. |
| `BuilderLifecycle.LowerCaseCollectionNames` | core/src/main/java/dev/morphia/mapping/MapperOptions.java:531-538 | `useLowerCaseCollectionNames(true)` is `collectionNaming(lowerCase())`. With `false` it only checks the lock. |
| `BuilderLifecycle.DisableEmbeddedIndexesOnlyChecksLock` | core/src/main/java/dev/morphia/mapping/MapperOptions.java:377-382 | `disableEmbeddedIndexes` throws on a locked builder and otherwise changes nothing. |
| `BuilderLifecycle.FieldNamingReadsPropertyNaming` | core/src/main/java/dev/morphia/mapping/MapperOptions.java:155-158 | `getFieldNaming()` of a built snapshot returns what `fieldNaming` or `propertyNaming` set. |
| `BuilderLifecycle.LegacySettersAssign` | core/src/main/java/dev/morphia/mapping/MapperOptions.java:92-98 | The six setter calls of `legacy()` succeed on any unlocked builder and assign exactly these values: system-default dates, `"className"`, the class-name discriminator, identity naming for both, and the legacy query factory. |
| `BuilderLifecycle.LegacyPreset` | core/src/main/java/dev/morphia/mapping/MapperOptions.java:91-99 | `legacy()` is a fresh builder with exactly those six assignments. |
| `BuilderLifecycle.PresetsDiffer` | core/src/main/java/dev/morphia/mapping/MapperOptions.java:249-265 | Both presets are unlocked. They differ in exactly five fields. Property naming is not among them, because `legacy()` sets the identity naming the default already has. |
| `Mapping.FromOptions` | core/src/main/java/dev/morphia/mapping/MapperOptions.java:271-289 | The copy constructor gives an unlocked builder with no added conventions. It copies every other field of the original except the class loader, which is taken from `getClassLoader()`. |
| `BuilderLifecycle.CopyRoundTrip` | core/src/main/java/dev/morphia/mapping/MapperOptions.java:271-289 | Copying a snapshot and building again reproduces every field except the conventions, which fall back to the defaults and the plugins, and the class loader, which becomes what `getClassLoader()` returned (the context loader when none was set). When the original had no added conventions and its own class loader, the result equals the original. |
| `JavaNumbers.WrapLong` | morphia/src/main/java/dev/morphia/query/experimental/updates/UpdateOperators.java:95 | Java `long` arithmetic gives a 64-bit value congruent to the exact result modulo 2^64, and equal to it when it fits. |
| `JavaNumbers.NegateLong` | morphia/src/main/java/dev/morphia/query/experimental/updates/UpdateOperators.java:95 | `x * -1` on a `long` is `-x`, except that `Long.MIN_VALUE` maps to itself. |
| `JavaNumbers.NegateDouble` | morphia/src/main/java/dev/morphia/query/experimental/updates/UpdateOperators.java:97 | `d * -1` on a `double` keeps NaN as NaN, keeps finiteness, flips the sign, and negates the real value of a finite double. |
| `Updates.DecBy` | morphia/src/main/java/dev/morphia/query/experimental/updates/UpdateOperators.java:93-100 | `dec(f, v)` succeeds if and only if `v` is an Integer, Long, Float or Double. It then is `inc(f, -v)`, with a Long amount for integral `v` and a Double amount for floating `v`. Every other kind, null included, throws the only-numbers error. |
| `Updates.DecLongMinValue` | morphia/src/main/java/dev/morphia/query/experimental/updates/UpdateOperators.java:94-95 | `dec(f, Long.MIN_VALUE)` increments by `Long.MIN_VALUE`. |
| `Updates.DecTwiceRestores` | morphia/src/main/java/dev/morphia/query/experimental/updates/UpdateOperators.java:93-100 | Decrementing by the amount a decrement produced increments by the original value, widened to Long or Double. |
| `Updates.DecNegatesExactly` | morphia/src/main/java/dev/morphia/query/experimental/updates/UpdateOperators.java:93-100 | For an Integer the increment is its exact negation, as a Long. For a finite Float or Double it is a finite Double whose real value is the negation. |
| `Updates.DefaultAmounts` | morphia/src/main/java/dev/morphia/query/experimental/updates/UpdateOperators.java:81-123 | `inc(f)` is `inc(f, 1)` and `dec(f)` is `inc(f, -1)`, both with Integer amounts. `dec(f, 1)` carries a Long `-1`, so it differs from `dec(f)`. |
| `Updates.Push` | morphia/src/main/java/dev/morphia/query/experimental/updates/UpdateOperators.java:208-210 | `push(f, x)` is a push operator on `f` carrying the one-element list `[x]`. |
| `Updates.PushWrapsSingleValue` | morphia/src/main/java/dev/morphia/query/experimental/updates/UpdateOperators.java:208-226 | `push(f, x)` equals `push(f, [x])`. |
| `Updates.OperatorTags` | morphia/src/main/java/dev/morphia/query/experimental/updates/UpdateOperators.java:121-238 | `inc`, `max`, `min`, `set` and `pullAll` build plain operators tagged `$inc`, `$max`, `$min`, `$set` and `$pullAll`, with field and argument unchanged. The five tags are distinct. |
| `Updates.BitOperations` | morphia/src/main/java/dev/morphia/query/experimental/updates/UpdateOperators.java:59-286 | `and`, `or` and `xor` build bit operators with sub-operations `"and"`, `"or"` and `"xor"`, with field and int unchanged. The three operators are pairwise distinct. |
| `Updates.SetEntity` | morphia/src/main/java/dev/morphia/query/experimental/updates/UpdateOperators.java:247-249 | `set(value)` builds the whole-document set operator carrying `value`, with no target field. |
| `Updates.SetOnInsert` | morphia/src/main/java/dev/morphia/query/experimental/updates/UpdateOperators.java:259-261 | `setOnInsert(map)` builds the set-on-insert operator carrying the map, with no target field. |
| `Updates.Pull` | morphia/src/main/java/dev/morphia/query/experimental/updates/UpdateOperators.java:183-185 | `pull(f, filter)` builds the pull operator on field `f` carrying `filter`. |
| `UpdateCalls.Make` | morphia/src/main/java/dev/morphia/query/experimental/updates/UpdateOperators.java:19-288 | A factory call throws if and only if it is `dec(f, v)` with a `v` that is not an Integer, Long, Float or Double. |
| `UpdateCalls.Canonical` | morphia/src/main/java/dev/morphia/query/experimental/updates/UpdateOperators.java:81-226 | The overloads whose operator another overload also builds (`inc(f)`, `dec(f)` and `dec(f, v)`, which call `inc(f, n)`, and `push(f, x)`, which builds what `push(f, [x])` builds) map to a call that is not of that kind and builds the same operator. Every other call is already canonical. |
| `UpdateCalls.RecoverInvertsMake` | morphia/src/main/java/dev/morphia/query/experimental/updates/UpdateOperators.java:19-288 | Every operator a factory builds can be read back. The call recovered is the canonical form of the call made. |
| `UpdateCalls.MakeInvertsRecover` | morphia/src/main/java/dev/morphia/query/experimental/updates/UpdateOperators.java:19-288 | Every call read back from an operator rebuilds exactly that operator. |
| `UpdateCalls.SameOperatorIffSameCanonicalCall` | morphia/src/main/java/dev/morphia/query/experimental/updates/UpdateOperators.java:19-288 | Two factory calls build operators with the same constructor arguments if and only if their canonical forms are equal. |

## Left out

- The service loader (`ServiceLoader.load`, MapperOptions.java:565-566) is not modelled. The conventions it would find are the input `plugins` of `Build`.
- `getClassLoader()` (MapperOptions.java:107-112) is modelled only inside the copy constructor, with the thread's context class loader as a parameter. Its side effect is not modelled: it stores the found loader in the original snapshot.
- The logging call in `disableEmbeddedIndexes` is left out because it is a side effect only.
- The implementations of `NamingStrategy`, `DiscriminatorFunction`, `QueryFactory`, `DateStorage` and the convention classes are not part of this model. They are tokens compared only for equality, named after the factory that makes them. `NamingStrategy` and `DiscriminatorFunction` have further variants (`CustomNaming`, `CustomDiscriminator`) for any other instance.
- Java object identity is not modelled. `build()` returning "the same instance" is modelled as returning an equal value, and two `new DefaultQueryFactory()` objects are the same token.
- `getConventions()` returns a read-only view. The read-only wrapper is not modelled. The snapshot's list may also be the builder's own list (`conventions()` returns it when it is non-empty). The lock keeps that list from changing, so a value copy is equivalent.
- The classes `AddToSetOperator`, `PushOperator`, `BitOperator`, `PullOperator`, `PopOperator`, `CurrentDateOperator`, `UnsetOperator`, `SetEntityOperator` and `SetOnInsertOperator`, and `Filter`, are not part of this model. Each is a variant carrying its constructor arguments. In particular, neither the wire tag nor the wrapping of `addToSet(f, Object)` is claimed: `addToSet(f, x)` and `addToSet(f, [x])` are told apart only because their constructor arguments differ.
- Floating point is modelled only as far as the sign flip in `dec`: a double is NaN or a sign with a non-negative real or infinite magnitude. Which reals are representable, and the narrower range of `float`, are not modelled.
- Exception messages (`Sofia.*`) are not modelled: errors are kinds only (`MapperOptionsLocked`, `OnlyNumberTypesAllowed`).
- Null is modelled in two places. The class loader may be null (`None`, also through `classLoader(null)`). A `Number` argument may be null (`NullNumber`): `dec(f, null)` throws, while `inc`, `max` and `min` carry it unchanged. Field names, values and the other arguments are never null here.
- Merging a list of operators into one update document, and detecting conflicts between operators, are not part of this model. Neither modelled file does this.
- Updates.AddToSet: its own contract states only the target field or the variant; the exact operator is stated by the `UpdateCalls` round trip.
- Updates.AddToSetAll: its own contract states only the target field or the variant; the exact operator is stated by the `UpdateCalls` round trip.
- Updates.CurrentDate: its own contract states only the target field or the variant; the exact operator is stated by the `UpdateCalls` round trip.
- Updates.Pop: its own contract states only the target field or the variant; the exact operator is stated by the `UpdateCalls` round trip.
- Updates.Unset: its own contract states only the target field or the variant; the exact operator is stated by the `UpdateCalls` round trip.
- Updates.IncBy: its own contract states only the target field or the variant; the exact operator is stated by `OperatorTags` and the `UpdateCalls` round trip.
- Updates.Inc: its own contract states only the target field or the variant; the exact operator is stated by `DefaultAmounts`.
- Updates.Dec: its own contract states only the target field or the variant; the exact operator is stated by `DefaultAmounts`.
- Updates.Max: its own contract states only the target field or the variant; the exact operator is stated by `OperatorTags` and the `UpdateCalls` round trip.
- Updates.Min: its own contract states only the target field or the variant; the exact operator is stated by `OperatorTags` and the `UpdateCalls` round trip.
- Updates.PullAll: its own contract states only the target field or the variant; the exact operator is stated by `OperatorTags` and the `UpdateCalls` round trip.
- Updates.PushAll: its own contract states only the target field or the variant; the exact operator is stated by the `UpdateCalls` round trip.
- Updates.Set: its own contract states only the target field or the variant; the exact operator is stated by `OperatorTags` and the `UpdateCalls` round trip.
- Updates.And: its own contract states only the target field or the variant; the exact operator is stated by `BitOperations`.
- Updates.Or: its own contract states only the target field or the variant; the exact operator is stated by `BitOperations`.
- Updates.Xor: its own contract states only the target field or the variant; the exact operator is stated by `BitOperations`.

## Notes on the code

- `fetchReferencesViaAggregation` (MapperOptions.java:430-433) is the only setter without a lock check. It succeeds on a built builder and changes only the builder's field.
- Adding any convention with `addConvention` replaces the whole built-in list, not only the discovered part (MapperOptions.java:558-571).
- `dec(f, v)` (UpdateOperators.java:93-100) accepts only Integer, Long, Float and Double. Short, Byte, BigDecimal, every other `Number` kind and null throw.
- No factory checks that the field name is non-empty.
