# DatabaseTableConfigUtil: a verified model

ORMLite for Android builds the table configuration of an annotated class with
`DatabaseTableConfigUtil`. Calling the methods of a `@DatabaseField` annotation
is slow on Android. So the utility reads the values out of the Harmony runtime's
annotation proxy directly, in four steps:

- It finds, once, the order of the proxy's `AnnotationMember` array. Each member
  name becomes an ordinal 1..27 through a closed name table.
- For each field it fills a fresh `DatabaseFieldConfig` member by member,
  dispatching on those ordinals (the fast path).
- It falls back to the normal `DatabaseFieldConfig.fromField` (the slow path)
  whenever the fast path gives nothing or raises. It counts, in `workedC`, the
  fields the fast path configured.
- It collects the persisted field configurations of the class and all its
  superclasses.

The model has six modules:

- `Wrappers` holds the `Option` and `Result` types that carry Java's null and
  exceptions.
- `Annotations` holds the reflective inputs, as values:
  - an annotation proxy is whether its handler is the runtime's
    `AnnotationFactory`, plus its (possibly null) member array;
  - a field is its name plus its annotation, if any;
  - a class is its name plus its fields in the order `getDeclaredFields`
    returns them;
  - a member value carries its Java class as a tag, so a wrong cast is a
    `ClassCastException` outcome.
- `ConfigNames` holds the name table (`configFieldNameToNum`) and the mapping
  loop of `lookupClasses`.
- `FieldConfigs` holds the configuration record and `assignConfigField`:
  - `Record` is the record value;
  - `FieldConfig` is the mutable object, changed in place through its setters;
  - `Assign` is the pure specification that `AssignConfigField` is proved
    against.
- `FastPath` holds `buildConfig`: the `ApplyMembers` fold specifies the loop,
  and the `BuildConfig` method runs it on a `FieldConfig`.
- `Resolver` holds `configFromField` and `fromClass`. They are methods of the
  class `TableConfigUtil`, which holds the static state (the ordinal array and
  `workedC`). `FieldConfigOf`, `Scan`, `Kept`, `FastCount` and `TableConfigOf`
  specify them.

Exceptions are `Result` failures. Java `null` is `Option.None`.

The model follows the code's exception handling. `configFromField`
(DatabaseTableConfigUtil.java:211-216) catches every `Exception` raised by
`buildConfig`. This includes:

- a failed cast;
- a member array shorter than the ordinal array;
- an unknown ordinal;
- an enum name with no matching constant.

Each of these makes the field fall back to `fromField`. So neither an unknown
ordinal nor an enum mismatch reaches the caller of `fromClass`: that field is
configured by `fromField` instead.

An unknown member NAME during discovery is not caught: `lookupClasses` catches
only `IllegalAccessException`. `LookupClasses` therefore returns
`Failure(UnknownConfigName(name))`.

## Model

| member | source | states |
|---|---|---|
| ConfigNames.ConfigFieldNameToNum | src/main/java/com/j256/ormlite/android/DatabaseTableConfigUtil.java:132-189 | A name that is accepted gets an ordinal in 1..27 whose table entry is that name. A rejected name is in no table entry and raises the "Could not find support for DatabaseField <name>" error. |
| ConfigNames.NameOrdinal | src/main/java/com/j256/ormlite/android/DatabaseTableConfigUtil.java:132-189 | The `k`-th name of the table maps to ordinal `k`. |
| ConfigNames.NameTableComplete | src/main/java/com/j256/ormlite/android/DatabaseTableConfigUtil.java:132-189 | The table has exactly 27 entries, and every ordinal 1..27 is reached by its name: there are no gaps. |
| ConfigNames.NamesDistinct | src/main/java/com/j256/ormlite/android/DatabaseTableConfigUtil.java:132-189 | No two table entries share a name. |
| ConfigNames.ConfigFieldNameToNumAccepts | src/main/java/com/j256/ormlite/android/DatabaseTableConfigUtil.java:132-189 | The lookup succeeds if and only if the name is one of the 27 recognised names. |
| ConfigNames.ConfigFieldNameToNumInjective | src/main/java/com/j256/ormlite/android/DatabaseTableConfigUtil.java:132-189 | Two names with the same ordinal are the same name. |
| ConfigNames.OrdinalsOf | src/main/java/com/j256/ormlite/android/DatabaseTableConfigUtil.java:115-123 | Mapping the member names gives one ordinal per name, in order, each naming that member; otherwise it gives the error of an unrecognised name. |
| ConfigNames.OrdinalsOfFailureExtends | src/main/java/com/j256/ormlite/android/DatabaseTableConfigUtil.java:118-121 | Once a prefix of the names contains an unknown name, the whole mapping fails with that error: the loop stops at the first unknown name. |
| ConfigNames.LookupClasses | src/main/java/com/j256/ormlite/android/DatabaseTableConfigUtil.java:115-123 | The loop fills a fresh array with exactly the ordinals of the member names, or raises the first unknown name's error. |
| FieldConfigs.Blank | src/main/java/com/j256/ormlite/android/DatabaseTableConfigUtil.java:241 | A new configuration carries the field's name, all 27 attributes, and is persisted by default. |
| FieldConfigs.Set | src/main/java/com/j256/ormlite/android/DatabaseTableConfigUtil.java:256-346 | A setter changes only its own attribute and keeps the field name. |
| FieldConfigs.FieldConfig.constructor | src/main/java/com/j256/ormlite/android/DatabaseTableConfigUtil.java:241 | The new object holds the default record for the field's name. |
| FieldConfigs.FieldConfig.SetAttr | src/main/java/com/j256/ormlite/android/DatabaseTableConfigUtil.java:256-346 | Calling the setter an ordinal denotes updates that one attribute of the object in place. |
| FieldConfigs.ValueIfNotBlank | src/main/java/com/j256/ormlite/android/DatabaseTableConfigUtil.java:349-355 | The result is non-null if and only if the input is a non-empty string, and is then the input itself. |
| FieldConfigs.ValueIfNotBlankIdempotent | src/main/java/com/j256/ormlite/android/DatabaseTableConfigUtil.java:349-355 | Normalising twice equals normalising once. |
| FieldConfigs.Assign | src/main/java/com/j256/ormlite/android/DatabaseTableConfigUtil.java:256-346 | A successful assignment has a known ordinal, keeps the field name, and leaves every attribute except the ordinal's own unchanged. An ordinal outside 1..27 raises "Could not find support for DatabaseField number <n>". |
| FieldConfigs.AssignSucceeds | src/main/java/com/j256/ormlite/android/DatabaseTableConfigUtil.java:256-346 | The assignment succeeds if and only if: the ordinal is known; the value has the class that ordinal casts to; and for `unknownEnumName`, the enum match succeeds. |
| FieldConfigs.AssignStores | src/main/java/com/j256/ormlite/android/DatabaseTableConfigUtil.java:258-336 | What the denoted attribute holds afterwards. The six blank-normalised strings store the normalised value, so "" becomes null. The "no default" marker leaves the record unchanged; any other default value, "" included, is stored. The enum attribute stores the matched constant. Booleans, integers, data types and persister classes are stored as given. |
| FieldConfigs.AssignConfigField | src/main/java/com/j256/ormlite/android/DatabaseTableConfigUtil.java:256-346 | The in-place assignment succeeds exactly when `Assign` does, and leaves the object holding `Assign`'s record. On an exception the object is unchanged. |
| FastPath.ApplyMembers | src/main/java/com/j256/ormlite/android/DatabaseTableConfigUtil.java:243-248 | Every round of the member loop keeps the field name and the full set of attributes. |
| FastPath.ApplyFailureSticks | src/main/java/com/j256/ormlite/android/DatabaseTableConfigUtil.java:243-248 | The first exception in the member loop is the loop's outcome. |
| FastPath.ApplyTooFewMembers | src/main/java/com/j256/ormlite/android/DatabaseTableConfigUtil.java:243-244 | A member array shorter than the ordinal array always raises. |
| FastPath.ApplyAllNull | src/main/java/com/j256/ormlite/android/DatabaseTableConfigUtil.java:244-247 | Null member values are skipped: if all are null, the new configuration keeps its defaults. |
| FastPath.ApplyUntouched | src/main/java/com/j256/ormlite/android/DatabaseTableConfigUtil.java:243-248 | An attribute that no later non-null member assigns keeps its value. |
| FastPath.ApplyLastWriteWins | src/main/java/com/j256/ormlite/android/DatabaseTableConfigUtil.java:243-248 | An attribute holds what the assignment of the last non-null member with its ordinal produced. |
| FastPath.FastConfig | src/main/java/com/j256/ormlite/android/DatabaseTableConfigUtil.java:230-250 | A configuration built by the fast path is named after the field. |
| FastPath.BuildConfig | src/main/java/com/j256/ormlite/android/DatabaseTableConfigUtil.java:230-250 | Returns null when the handler is not an `AnnotationFactory` or the member array is null. Raises when the member array is shorter than the ordinal array. Otherwise returns a fresh object holding exactly `FastConfig`'s record, or `FastConfig`'s exception. |
| Resolver.FieldConfigOf | src/main/java/com/j256/ormlite/android/DatabaseTableConfigUtil.java:195-224 | The fast path's record is used if and only if there is an ordinal array, an annotation, and `buildConfig` yields a record. Only the slow path's exception escapes, because `buildConfig`'s exceptions are dropped. Without an ordinal array, or when the fast path yields nothing, the slow path's answer is returned. An unannotated field gets null. |
| Resolver.ReferenceSnoc | src/main/java/com/j256/ormlite/android/DatabaseTableConfigUtil.java:49-54 | Extending the field list by one field extends the reference list and count as one more loop round does. |
| Resolver.ScanIsReference | src/main/java/com/j256/ormlite/android/DatabaseTableConfigUtil.java:48-54 | The walk over the fields produces exactly the persisted, non-null configurations in field order (or the first exception), and adds exactly the number of fast-path fields to `workedC`. |
| Resolver.ScanFailureSticks | src/main/java/com/j256/ormlite/android/DatabaseTableConfigUtil.java:48-54 | Once `configFromField` raises, the walk's outcome is fixed. |
| Resolver.ScanSnoc | src/main/java/com/j256/ormlite/android/DatabaseTableConfigUtil.java:49-54 | One loop round appends the field's contribution and its fast-path count. |
| Resolver.KeptMembership | src/main/java/com/j256/ormlite/android/DatabaseTableConfigUtil.java:50-53 | A configuration is in the list if and only if it is persisted and some field's `configFromField` returned it. |
| Resolver.KeptFails | src/main/java/com/j256/ormlite/android/DatabaseTableConfigUtil.java:48-54 | The walk raises if and only if some field's `configFromField` raises. |
| Resolver.NoOrdinalsNeverFast | src/main/java/com/j256/ormlite/android/DatabaseTableConfigUtil.java:198-200 | Without an ordinal array, `workedC` never grows. |
| Resolver.FlattenAppend | src/main/java/com/j256/ormlite/android/DatabaseTableConfigUtil.java:48-49 | Walking two stretches of the hierarchy visits the fields of the first stretch, then those of the second. |
| Resolver.FlattenOrder | src/main/java/com/j256/ormlite/android/DatabaseTableConfigUtil.java:48-49 | A class's own declared fields are visited before those of all its superclasses. |
| Resolver.FlattenStep | src/main/java/com/j256/ormlite/android/DatabaseTableConfigUtil.java:48-49 | Each class adds its declared fields after the classes before it. |
| Resolver.WalkStopsAt | src/main/java/com/j256/ormlite/android/DatabaseTableConfigUtil.java:48-54 | An exception at some field of some class is the outcome of the whole walk. |
| Resolver.TableConfigOfEmpty | src/main/java/com/j256/ormlite/android/DatabaseTableConfigUtil.java:55-60 | `fromClass` returns null if and only if nothing raises and no field yields a persisted, non-null configuration. Otherwise the table configuration names the class and the table, is non-empty, and lists only persisted configurations. |
| Resolver.TableConfigUtil.constructor | src/main/java/com/j256/ormlite/android/DatabaseTableConfigUtil.java:36-38 | Class initialisation stores the discovered ordinal array and starts `workedC` at 0. |
| Resolver.TableConfigUtil.GetWorkedC | src/main/java/com/j256/ormlite/android/DatabaseTableConfigUtil.java:66-68 | Reports the current count of fields the fast path has configured. |
| Resolver.TableConfigUtil.ConfigFromField | src/main/java/com/j256/ormlite/android/DatabaseTableConfigUtil.java:195-224 | Returns `FieldConfigOf`'s configuration or exception. Adds one to `workedC` exactly when the fast path produced the configuration. |
| Resolver.TableConfigUtil.FromClass | src/main/java/com/j256/ormlite/android/DatabaseTableConfigUtil.java:43-61 | The two nested loops return `TableConfigOf` and add the reference fast-path count to `workedC`. `TableConfigOf` is: the first exception; or null when the list is empty; or the class, the table name and the persisted non-null configurations in hierarchy order. |

## Left out

- Reflection itself is given as values: `Class.forName`, `getDeclaredField`, `setAccessible`, `Proxy.getInvocationHandler`, `Field.get`. The reflective failures of `lookupClasses` that make it return null are the `None` given to the `TableConfigUtil` constructor. `IllegalAccessException` and `SecurityException` are not modelled as separate outcomes.
- The handler check of `buildConfig` (line 233) is the flag `AnnotationProxy.handlerIsFactory`. The checks of `lookupClasses` at lines 104 and 111 make it return null, which is the `None` given to the `TableConfigUtil` constructor. The sample-field lookup of `lookupClasses` (lines 74-113) supplies only the member names.
- `DatabaseFieldConfig.fromField` (the slow path) and `DatabaseFieldConfig.findMatchingEnumVal` are parameters. They are not part of this model, so the model says nothing about what they compute. It therefore does not state that the fast and slow paths agree.
- `DatabaseTableConfig.extractTableName` is a parameter. The `DatabaseTableConfig` constructor becomes the record `TableConfig`. `connectionSource.getDatabaseType()` is not modelled. The unused `tableName` argument of `buildConfig` is dropped.
- The defaults of `new DatabaseFieldConfig(name)` come from that class, which is not part of this model. `Blank` fixes them as follows: `canBeNull` and `persisted` are true; `width` is 0; `maxForeignAutoRefreshLevel` is -1; `dataType` is `UNKNOWN`; `persisterClass` is `VoidType`; every other attribute is false or null.
- `DEFAULT_STRING` is ORMLite's marker string from `DatabaseField`, used only for equality.
- The 27 attributes are kept as one ordinal-indexed sequence, not 27 named fields. Each setter writes one index.
- `Resolver.TableConfigUtil.ConfigFromField`: this member returns a snapshot value of the configuration object rather than the object itself. The object is fresh per call and never aliased, so nothing observable is lost.
- `Resolver.TableConfigUtil.FromClass`: `workedC` is an unbounded `nat`. The Java `int` would wrap after 2^31 fast-path fields.
- Concurrency is not modelled: `workedC++` on a static field is not atomic in Java. The ordering of static initialisation is not modelled either.
- A record returned by the slow path counts as persisted only when it has all 27 attributes with `persisted` true.
- The `TableConfigUtil` constructor's `Some` ordinal array stands for a `Success` of `LookupClasses`. Its `Failure` (an unknown member name) would be a failed class initialisation (`ExceptionInInitializerError`), which is not modelled.
- The class `DatabaseFieldSample` only carries the sample annotation and is not modelled.
