# Type-qualifier resolution (SpotBugs `TypeQualifierResolver`)

This project models the part of SpotBugs that works out which JSR-305 type
qualifiers apply to a program element. It starts from the annotation usages
(`AnnotationValue`s) found on the element. There are three mechanisms:

- **Shortcut tables.** Well-known vendor spellings of "nullable" and
  "non-null" are mapped straight onto the canonical
  `javax/annotation/CheckForNull` and `javax/annotation/Nonnull` usages.
- **Nickname walk.** The resolver follows the "annotated with" graph through
  classes marked `@TypeQualifierNickname` until it reaches classes marked
  `@TypeQualifier`. A stack of class descriptors cuts off cycles.
- **Defaults scoping.** `@TypeQualifierDefault` annotations are expanded when
  their `value` array names the requested `ElementType`.

The model is imperative, like the source. `resolveTypeQualifierNicknames`,
both `resolveTypeQualifierDefaults` and the two `resolveTypeQualifiers`
entry points become methods (module `TypeQualifierResolver`). They work on
three mutable objects:

- a `LinkedList` class for the `result` list and the `onStack` list;
- an `AnalysisContext` class that collects the missing-class reports and the
  logged errors.

Each method is proved to append exactly the qualifiers, reports and log
entries computed by a pure function of module `Resolution`. These functions
are `Nicknames`, `Classified`, `Expand`, `ResolveAll`, `Defaults` and
`DefaultsAll`, and each returns a `Trace`. The methods also restore the stack
on every path. The properties of resolution are proved about the functions
in module `ResolutionProperties`. Module `Scenarios` works through a small
repository holding the JSR-305 annotations with the meta-annotations that
matter to resolution, including the Jakarta `Nullable` case of the end-to-end regression test.

Some functions are definitions of the model's abstractions rather than
properties, so they have no row below:

- `Repository.Lookup` stands in for the analysis cache's
  `getClassAnalysis(XClass.class, d)`. A descriptor in `classes` is found. A
  descriptor in `broken` fails with a `CheckedAnalysisException` other than a
  missing class. Any other descriptor raises `MissingClassException`.
- `Annotations.Synthetic(d)` is `new AnnotationValue(d)`, a usage with no
  arguments.
- `Annotations.ValueArrayAsWritten` is the cast
  `(Object[]) getValue("value")` as the code does it, with the null case
  spelled out (see Findings).
- `Resolution.MissingClassTrace` is what `logMissingAnnotationClass` adds:
  the class, when the (corrected) filter `IsReportable` holds, and nothing
  else.

Termination of the walk is proved with a measure: the number of descriptors
in the repository keys and the two tables that are not on the stack. Pushing
a class that is not yet on the stack lowers it. A class outside that universe
fails its lookup without recursing.

Two consequences of the code:

- A shortcut yields whatever resolving the synthetic `CheckForNull`/`Nonnull`
  usage yields, with the vendor class pushed (`NullableShortcut`). With the
  JSR-305 class files, `@CheckForNull` is itself a nickname of
  `@Nonnull(when = MAYBE)`, so that is what comes out
  (`CheckForNullResolves`, `JakartaNullableResolves`).
- The collection entry point shares one stack across all usages. Every
  resolution pops what it pushed, though, so each usage starts on an empty
  stack. `ResolveAll` therefore starts each usage from `[]`, and the loop
  invariant of `ResolveTypeQualifierCollection` proves the stack is empty
  between usages.

## Model

| member | source | states |
|---|---|---|
| NullnessTables.TableMembership | spotbugs/src/main/java/edu/umd/cs/findbugs/ba/jsr305/TypeQualifierResolver.java:55-84 | jakarta `Nullable` is in the nullable table; the FindBugs `Nullable` is deliberately in neither table; Eclipse `NonNullByDefault` and FindBugs `NonNull` are in the non-null table; the tables have 10 and 11 entries |
| NullnessTables.TablesDisjoint | spotbugs/src/main/java/edu/umd/cs/findbugs/ba/jsr305/TypeQualifierResolver.java:57-84 | no descriptor is in both tables, so the order of the two table scans cannot change which canonical usage a class maps to |
| NullnessTables.CanonicalNotShortcuts | spotbugs/src/main/java/edu/umd/cs/findbugs/ba/jsr305/TypeQualifierResolver.java:57-84 | neither table holds the canonical `CheckForNull`/`Nonnull` descriptors or the JSR-305 meta-annotations, so a shortcut never leads straight into another shortcut |
| Descriptors.DottedName | spotbugs/src/main/java/edu/umd/cs/findbugs/ba/jsr305/TypeQualifierResolver.java:186 | the dotted class name the missing-class filter evidently means to test: the same length as the descriptor, with every `/` turned into `.` and every other character kept |
| Annotations.XClass.AnnotationDescriptors | spotbugs/src/main/java/edu/umd/cs/findbugs/ba/jsr305/TypeQualifierResolver.java:161 | `getAnnotationDescriptors()`: the class of each annotation on the class, one per annotation, in order |
| Descriptors.NameInjective | spotbugs/src/main/java/edu/umd/cs/findbugs/ba/jsr305/TypeQualifierResolver.java:236 | comparing an enum entry's name with `defaultFor.name()` matches exactly one `ElementType` constant |
| Annotations.XClass.GetAnnotation | spotbugs/src/main/java/edu/umd/cs/findbugs/ba/jsr305/TypeQualifierResolver.java:229-232 | a class has a usage of `d` iff `d` is among its annotation descriptors; that usage is one of the class's annotations and is of class `d`; otherwise null (`None`) |
| Annotations.ValueArray | spotbugs/src/main/java/edu/umd/cs/findbugs/ba/jsr305/TypeQualifierResolver.java:233 | the corrected reading: an omitted `value` is the empty array; an array gives the same elements as the code as written; the result is "not an array" exactly when the cast as written fails with a class cast |
| Annotations.OmittedDefaultValueEscapes | spotbugs/src/main/java/edu/umd/cs/findbugs/ba/jsr305/TypeQualifierResolver.java:233 | a `@TypeQualifierDefault` usage with no `value` makes the code as written dereference null, while the corrected reading gives no entries |
| LinkedLists.LinkedList.Add | spotbugs/src/main/java/edu/umd/cs/findbugs/ba/jsr305/TypeQualifierResolver.java:143 | appends one element at the end |
| LinkedLists.LinkedList.RemoveLast | spotbugs/src/main/java/edu/umd/cs/findbugs/ba/jsr305/TypeQualifierResolver.java:179 | removes and returns the last element |
| LinkedLists.LinkedList.Contains | spotbugs/src/main/java/edu/umd/cs/findbugs/ba/jsr305/TypeQualifierResolver.java:138 | true iff the element is in the list |
| Diagnostics.AnalysisContext.ReportMissingClass | spotbugs/src/main/java/edu/umd/cs/findbugs/ba/jsr305/TypeQualifierResolver.java:187 | appends the class to the reported missing classes, log unchanged |
| Diagnostics.AnalysisContext.LogError | spotbugs/src/main/java/edu/umd/cs/findbugs/ba/jsr305/TypeQualifierResolver.java:174 | appends one entry to the error log, reports unchanged |
| TypeQualifierResolver.ResolveTypeQualifiers | spotbugs/src/main/java/edu/umd/cs/findbugs/ba/jsr305/TypeQualifierResolver.java:95-99 | one usage resolved from a fresh empty stack: the result, the new reports and the new log entries are those of `Nicknames(repo, value, [])` |
| TypeQualifierResolver.ResolveTypeQualifierCollection | spotbugs/src/main/java/edu/umd/cs/findbugs/ba/jsr305/TypeQualifierResolver.java:201-211 | the usages resolved in order into one list with one shared stack, equal to `ResolveAll`; empty input gives the empty list and touches nothing |
| TypeQualifierResolver.ResolveTypeQualifierDefaults | spotbugs/src/main/java/edu/umd/cs/findbugs/ba/jsr305/TypeQualifierResolver.java:111-118 | the defaults of each usage for the element type, appended in input order, equal to `DefaultsAll` |
| TypeQualifierResolver.ResolveTypeQualifierNicknames | spotbugs/src/main/java/edu/umd/cs/findbugs/ba/jsr305/TypeQualifierResolver.java:134-182 | the stack on exit equals the stack on entry on every path (cycle return, shortcut returns, caught failures, normal end); the result list, the reports and the log only grow, by exactly the trace of `Nicknames` for the entry stack |
| TypeQualifierResolver.ResolveAnnotationClass | spotbugs/src/main/java/edu/umd/cs/findbugs/ba/jsr305/TypeQualifierResolver.java:160-176 | with the class pushed, the lookup and marker branch appends exactly the trace of `Classified` and leaves the stack as it found it |
| TypeQualifierResolver.IndexOf | spotbugs/src/main/java/edu/umd/cs/findbugs/ba/jsr305/TypeQualifierResolver.java:146-158 | the scan of one table: the first position holding the class, or none exactly when the class is not in the table |
| TypeQualifierResolver.ExpandNickname | spotbugs/src/main/java/edu/umd/cs/findbugs/ba/jsr305/TypeQualifierResolver.java:161-166 | the loop over a nickname class's annotations: each one other than `@TypeQualifierNickname` resolved in declared order on the same stack, appending exactly the trace of `Expand`; the stack is unchanged at the end |
| TypeQualifierResolver.DeclaresDefault | spotbugs/src/main/java/edu/umd/cs/findbugs/ba/jsr305/TypeQualifierResolver.java:234-244 | the scan of the `value` array stops with true exactly when some entry is an `ElementType` enum constant named like the requested kind; other entries are skipped |
| TypeQualifierResolver.ExpandDefaults | spotbugs/src/main/java/edu/umd/cs/findbugs/ba/jsr305/TypeQualifierResolver.java:237-241 | every annotation of the class other than `@TypeQualifierDefault`, in declared order, each resolved on its own fresh stack, appending exactly the trace of `Expand` from the empty stack |
| TypeQualifierResolver.ResolveOnFreshStack | spotbugs/src/main/java/edu/umd/cs/findbugs/ba/jsr305/TypeQualifierResolver.java:239 | one usage resolved on a new empty stack appends exactly the trace of `Nicknames` from `[]` |
| TypeQualifierResolver.LogMissingAnnotationClass | spotbugs/src/main/java/edu/umd/cs/findbugs/ba/jsr305/TypeQualifierResolver.java:184-189 | reports the class exactly when its dotted name starts with `javax.annotation` or `jakarta.annotation` (the corrected filter, see Findings) and logs nothing |
| TypeQualifierResolver.ResolveTypeQualifierDefaultsOf | spotbugs/src/main/java/edu/umd/cs/findbugs/ba/jsr305/TypeQualifierResolver.java:224-256 | appends exactly the trace of `Defaults`: nothing when there is no `@TypeQualifierDefault`, one expansion with fresh stacks on the first matching entry (`break`), the caught failures reported or logged |
| ResolutionProperties.CycleCutOff | spotbugs/src/main/java/edu/umd/cs/findbugs/ba/jsr305/TypeQualifierResolver.java:138-141 | a usage whose class is already on the stack adds no qualifier and no report, and logs one cycle message holding the stack |
| ResolutionProperties.LookupFailureContributesNothing | spotbugs/src/main/java/edu/umd/cs/findbugs/ba/jsr305/TypeQualifierResolver.java:170-176 | a failed lookup adds no qualifier; a missing class is reported iff it is in the javax/jakarta annotation namespaces and logs nothing; any other analysis error logs one message and reports nothing |
| ResolutionProperties.MarkersDecide | spotbugs/src/main/java/edu/umd/cs/findbugs/ba/jsr305/TypeQualifierResolver.java:160-169 | a nickname class is expanded even if it is also a type qualifier; a type qualifier class gives back the original usage, arguments intact, exactly once; any other class gives nothing |
| ResolutionProperties.NicknamesIgnoreStackedClasses | spotbugs/src/main/java/edu/umd/cs/findbugs/ba/jsr305/TypeQualifierResolver.java:138-158 | two repositories that agree on every class not on the stack give the same resolution: the repository is never consulted for a class that is on the stack |
| ResolutionProperties.ExpandIgnoresStackedClasses | spotbugs/src/main/java/edu/umd/cs/findbugs/ba/jsr305/TypeQualifierResolver.java:161-166 | the same for the expansion of a nickname class's annotations |
| ResolutionProperties.NullableShortcut | spotbugs/src/main/java/edu/umd/cs/findbugs/ba/jsr305/TypeQualifierResolver.java:146-151 | a class in the nullable table resolves exactly as the synthetic `CheckForNull` usage with the class pushed, whatever the usage's arguments and whatever the repository holds for the class |
| ResolutionProperties.NonNullShortcut | spotbugs/src/main/java/edu/umd/cs/findbugs/ba/jsr305/TypeQualifierResolver.java:153-158 | the same for the non-null table and the synthetic `Nonnull` usage |
| ResolutionProperties.NicknamesSound | spotbugs/src/main/java/edu/umd/cs/findbugs/ba/jsr305/TypeQualifierResolver.java:134-182 | every emitted usage is of a primary qualifier class (outside both tables, loadable, `@TypeQualifier` and not `@TypeQualifierNickname`), and every reported class is a missing class of the javax/jakarta namespaces; neither is on the entry stack |
| ResolutionProperties.ExpandSound | spotbugs/src/main/java/edu/umd/cs/findbugs/ba/jsr305/TypeQualifierResolver.java:161-166 | the same for the expansion of a class's annotations |
| ResolutionProperties.ReportableSlashForm | spotbugs/src/main/java/edu/umd/cs/findbugs/ba/jsr305/TypeQualifierResolver.java:186 | for a slash-form descriptor, the dotted-name prefix test is the same as a `javax/annotation` or `jakarta/annotation` prefix on the descriptor |
| ResolutionProperties.AsWrittenNeverReports | spotbugs/src/main/java/edu/umd/cs/findbugs/ba/jsr305/TypeQualifierResolver.java:186 | as written (`getClassName()` is the slash form, compared with dotted prefixes) the filter never holds for a descriptor without `.`, so no missing class is ever reported |
| Scenarios.GuardedByFilterDiffers | spotbugs/src/main/java/edu/umd/cs/findbugs/ba/jsr305/TypeQualifierResolver.java:184-189 | a missing `javax/annotation/concurrent/GuardedBy` is reported under the dotted-name test but not under the test as written |
| ResolutionProperties.ResolveAllAppend | spotbugs/src/main/java/edu/umd/cs/findbugs/ba/jsr305/TypeQualifierResolver.java:207-209 | resolving `a + b` is resolving `a` followed by resolving `b` |
| ResolutionProperties.DefaultsAllAppend | spotbugs/src/main/java/edu/umd/cs/findbugs/ba/jsr305/TypeQualifierResolver.java:114-116 | the defaults of `a + b` are the defaults of `a` followed by those of `b` |
| ResolutionProperties.ResolveAllInOrder | spotbugs/src/main/java/edu/umd/cs/findbugs/ba/jsr305/TypeQualifierResolver.java:201-211 | three usages give their three single-usage results concatenated in input order |
| ResolutionProperties.ResolveAllSingle | spotbugs/src/main/java/edu/umd/cs/findbugs/ba/jsr305/TypeQualifierResolver.java:95-99 | the collection entry point on one usage agrees with the single-usage entry point |
| ResolutionProperties.ResolveAllSound | spotbugs/src/main/java/edu/umd/cs/findbugs/ba/jsr305/TypeQualifierResolver.java:201-211 | everything the collection entry point emits is a primary qualifier usage and every report is a reportable missing class |
| ResolutionProperties.DefaultsScoping | spotbugs/src/main/java/edu/umd/cs/findbugs/ba/jsr305/TypeQualifierResolver.java:224-245 | when the class loads, carries `@TypeQualifierDefault` and its `value` array has an `ElementType` enum entry for the kind, the usage contributes every other annotation of the class resolved from an empty stack, once; otherwise it contributes no qualifier |
| ResolutionProperties.DefaultsSound | spotbugs/src/main/java/edu/umd/cs/findbugs/ba/jsr305/TypeQualifierResolver.java:224-256 | defaults emit only primary qualifier usages and report only reportable missing classes |
| Scenarios.NonnullResolves | spotbugs/src/main/java/edu/umd/cs/findbugs/ba/jsr305/TypeQualifierResolver.java:167-168 | `@Nonnull`, marked `@TypeQualifier`, comes back as the usage itself |
| Scenarios.DocumentedIsSilent | spotbugs/src/main/java/edu/umd/cs/findbugs/ba/jsr305/TypeQualifierResolver.java:184-189 | a missing `java.lang.annotation` class resolves to nothing and is not reported |
| Scenarios.MissingJavaxClassIsReported | spotbugs/src/main/java/edu/umd/cs/findbugs/ba/jsr305/TypeQualifierResolver.java:184-189 | a missing `javax.annotation` class resolves to nothing and is reported once, under the corrected dotted-name filter |
| Scenarios.CheckForNullResolves | spotbugs/src/main/java/edu/umd/cs/findbugs/ba/jsr305/TypeQualifierResolver.java:161-166 | `@CheckForNull`, a nickname, resolves to its `@Nonnull(when = MAYBE)` annotation, skipping the marker and the unloadable `@Documented` |
| Scenarios.JakartaNullableResolves | spotbugs/src/main/java/edu/umd/cs/findbugs/ba/jsr305/TypeQualifierResolver.java:146-151 | `jakarta.annotation.Nullable` resolves through the nullable table to `@Nonnull(when = MAYBE)`, the "may be null" qualifier the Jakarta regression test relies on |
| Scenarios.FindBugsNullableResolves | spotbugs/src/main/java/edu/umd/cs/findbugs/ba/jsr305/TypeQualifierResolver.java:72-73 | the FindBugs `Nullable`, kept out of the table, resolves through its own class file to `@Nonnull(when = UNKNOWN)` |
| Scenarios.SelfNamedCycleIsCut | spotbugs/src/main/java/edu/umd/cs/findbugs/ba/jsr305/TypeQualifierResolver.java:138-141 | a nickname annotated with itself resolves as if the cyclic annotation were absent, plus one cycle message |
| Scenarios.NonnullNicknameResolves | spotbugs/src/main/java/edu/umd/cs/findbugs/ba/jsr305/TypeQualifierResolver.java:161-166 | a user nickname of `@Nonnull` resolves to `@Nonnull` |
| Scenarios.DefaultAppliesToMethods | spotbugs/src/main/java/edu/umd/cs/findbugs/ba/jsr305/TypeQualifierResolver.java:233-242 | `@TypeQualifierDefault({METHOD, FIELD})` with a nickname of `@Nonnull` gives one `@Nonnull` for a method |
| Scenarios.DefaultSkipsParameters | spotbugs/src/main/java/edu/umd/cs/findbugs/ba/jsr305/TypeQualifierResolver.java:233-236 | the same defaults give nothing for a parameter |

## Left out

- Messages and exceptions are modelled as data. The exact text of
  `AnalysisContext.logError` messages and the attached exceptions become the
  `LogEntry` constructors `CycleFound`, `ErrorResolving` and
  `ClassCastLogged`.
- The analysis cache, `XClass` loading and `DescriptorFactory` are replaced
  by the `ClassRepository` value. The real versions parse class files.
  `ClassDescriptor` is not part of this model; a descriptor is its name in
  slash form, and `DottedName` is the explicit slash-to-dot conversion.
- `JSR305NullnessAnnotations` is not part of this model. Its `CHECK_FOR_NULL`
  and `NONNULL` are the fixed descriptors `javax/annotation/CheckForNull` and
  `javax/annotation/Nonnull`.
- The class view's annotations are a sequence. `getAnnotationDescriptors()`
  is taken in that order and `getAnnotation(d)` is the first usage of `d`.
  The iteration order of the real collection and duplicate annotations on one
  class are not modelled.
- Unchecked exceptions other than the `ClassCastException` the private
  `resolveTypeQualifierDefaults` catches are not modelled. Examples are a
  stack overflow on a very deep acyclic chain, and a null from `getValue`
  (see Findings).
- Concurrency and the cache's own state are not modelled. The resolver holds
  no shared mutable state.
- The bug counts of the Jakarta regression test come from the downstream
  null-dereference detector, which is not part of this model. Only the
  resolver's part is covered (`Scenarios.JakartaNullableResolves`).
- Annotation arguments other than enum constants and arrays are opaque
  (`OtherValue`). The resolver never looks inside them.
- Annotations.ValueArray: an omitted `value` is read as its declared default,
  the empty array. The code as written dereferences null here (see Findings);
  the rest of the model uses the corrected reading.
- TypeQualifierResolver.LogMissingAnnotationClass: follows the evident
  intent of the filter, a prefix test on the dotted class name. The code as
  written tests the slash-form name and so never reports (see Findings);
  `Resolution.IsReportableAsWritten` models that test.

## Findings

| source | as written | input that shows it | evidently intended | confidence | as-written member | corrected member |
|---|---|---|---|---|---|---|
| spotbugs/src/main/java/edu/umd/cs/findbugs/ba/jsr305/TypeQualifierResolver.java:233 | the for-each loops over `(Object[]) defaultAnnotation.getValue("value")` | a class annotated `@TypeQualifierDefault` with no explicit `value`: the parsed usage has no `value` entry, so `getValue` gives null and the loop throws a NullPointerException, which none of the three catch clauses handles | treat the omitted `value` as its declared default `{}`, so the usage contributes no defaults | medium, not executed | Annotations.ValueArrayAsWritten, Annotations.OmittedDefaultValueEscapes | Annotations.ValueArray |
| spotbugs/src/main/java/edu/umd/cs/findbugs/ba/jsr305/TypeQualifierResolver.java:186 | `c.getClassName().startsWith("javax.annotation")` (and the same for `jakarta.annotation`); `getClassName()` gives the slash form `javax/annotation/...` | a missing `javax/annotation/concurrent/GuardedBy`: the slash name never starts with the dotted prefix, so `reportMissingClass` is never called for any class | compare the dotted name (`getDottedClassName()`), so missing classes of the javax and jakarta annotation packages are reported | medium, not executed | Resolution.IsReportableAsWritten, ResolutionProperties.AsWrittenNeverReports, Scenarios.GuardedByFilterDiffers | Resolution.IsReportable, ResolutionProperties.ReportableSlashForm |
