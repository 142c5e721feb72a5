/** Concrete resolutions over a small repository holding the JSR-305
    nullness annotations with the meta-annotations that matter to resolution. */
module Scenarios {
  import opened Descriptors
  import opened Annotations
  import opened Repository
  import opened Diagnostics
  import opened Resolution
  import opened NullnessTables
  import opened ResolutionProperties

  const WHEN: ClassDescriptor := "javax/annotation/meta/When"
  const DOCUMENTED: ClassDescriptor := "java/lang/annotation/Documented"
  const FINDBUGS_NULLABLE: ClassDescriptor := "edu/umd/cs/findbugs/annotations/Nullable"
  const SELF_NAMED: ClassDescriptor := "com/example/SelfNamed"
  const NONNULL_BY_DEFAULT: ClassDescriptor := "com/example/NonnullByDefault"
  const NONNULL_NICKNAME: ClassDescriptor := "com/example/NonnullNickname"

  /** @Nonnull(when = When.MAYBE), which @CheckForNull is a nickname for. */
  const NONNULL_MAYBE: AnnotationValue := AnnotationValue(NONNULL, map["when" := EnumValue(WHEN, "MAYBE")])
  /** @Nonnull(when = When.UNKNOWN), which the FindBugs @Nullable is a nickname for. */
  const NONNULL_UNKNOWN: AnnotationValue := AnnotationValue(NONNULL, map["when" := EnumValue(WHEN, "UNKNOWN")])

  /** The usage @TypeQualifierDefault({METHOD, FIELD}). */
  const METHODS_AND_FIELDS: AnnotationValue :=
    AnnotationValue(TYPE_QUALIFIER_DEFAULT, map["value" := ArrayValue([EnumValue(ELEMENT_TYPE, "METHOD"), EnumValue(ELEMENT_TYPE, "FIELD")])])

  // The class views of the repository below.
  const CHECK_FOR_NULL_CLASS: XClass := XClass([Synthetic(DOCUMENTED), Synthetic(TYPE_QUALIFIER_NICKNAME), NONNULL_MAYBE])
  const NONNULL_CLASS: XClass := XClass([Synthetic(DOCUMENTED), Synthetic(TYPE_QUALIFIER)])
  const FINDBUGS_NULLABLE_CLASS: XClass := XClass([Synthetic(DOCUMENTED), NONNULL_UNKNOWN, Synthetic(TYPE_QUALIFIER_NICKNAME)])
  const SELF_NAMED_CLASS: XClass := XClass([Synthetic(TYPE_QUALIFIER_NICKNAME), Synthetic(SELF_NAMED), Synthetic(NONNULL)])
  const NONNULL_NICKNAME_CLASS: XClass := XClass([Synthetic(TYPE_QUALIFIER_NICKNAME), Synthetic(NONNULL)])
  const NONNULL_BY_DEFAULT_CLASS: XClass := XClass([METHODS_AND_FIELDS, Synthetic(NONNULL_NICKNAME)])

  /** CheckForNull and Nonnull as JSR-305 declares them (java.lang.annotation
      itself is not loadable here), the FindBugs Nullable, a nickname that
      names itself, and a defaults annotation for methods and fields whose
      default is a nickname of Nonnull. */
  const REPO: ClassRepository := ClassRepository(map[
    CHECK_FOR_NULL := CHECK_FOR_NULL_CLASS,
    NONNULL := NONNULL_CLASS,
    FINDBUGS_NULLABLE := FINDBUGS_NULLABLE_CLASS,
    SELF_NAMED := SELF_NAMED_CLASS,
    NONNULL_BY_DEFAULT := NONNULL_BY_DEFAULT_CLASS,
    NONNULL_NICKNAME := NONNULL_NICKNAME_CLASS
  ], {})

  /** A reportable class name has 'x' (javax) or 'r' (jakarta) at index 4 of
      its slash form, so "java/lang/..." is never reported. */
  lemma ReportableFifthChar(d: ClassDescriptor)
    ensures IsReportable(d) ==> |d| >= 16 && (d[4] == 'x' || d[4] == 'r')
  {
    if IsReportable(d) {
      var dotted := DottedName(d);
      assert dotted[4] == (if d[4] == '/' then '.' else d[4]);
      if StartsWith(dotted, "javax.annotation") {
        assert dotted[..16][4] == "javax.annotation"[4];
      } else {
        assert dotted[..18][4] == "jakarta.annotation"[4];
      }
    }
  }

  // The classes of these scenarios are in neither shortcut table.
  lemma DocumentedUntabled()
    ensures DOCUMENTED !in NULLABLE_CLASS_DESCRIPTORS && DOCUMENTED !in NON_NULL_CLASS_DESCRIPTORS
  {
  }

  lemma NonnullUntabled()
    ensures NONNULL !in NULLABLE_CLASS_DESCRIPTORS && NONNULL !in NON_NULL_CLASS_DESCRIPTORS
  {
  }

  lemma CheckForNullUntabled()
    ensures CHECK_FOR_NULL !in NULLABLE_CLASS_DESCRIPTORS && CHECK_FOR_NULL !in NON_NULL_CLASS_DESCRIPTORS
  {
  }

  lemma FindBugsNullableUntabled()
    ensures FINDBUGS_NULLABLE !in NULLABLE_CLASS_DESCRIPTORS && FINDBUGS_NULLABLE !in NON_NULL_CLASS_DESCRIPTORS
  {
  }

  lemma SelfNamedUntabled()
    ensures SELF_NAMED !in NULLABLE_CLASS_DESCRIPTORS && SELF_NAMED !in NON_NULL_CLASS_DESCRIPTORS
  {
  }

  lemma NonnullNicknameUntabled()
    ensures NONNULL_NICKNAME !in NULLABLE_CLASS_DESCRIPTORS && NONNULL_NICKNAME !in NON_NULL_CLASS_DESCRIPTORS
  {
  }

  lemma Lookups()
    ensures Lookup(REPO, DOCUMENTED) == Failed(MissingClass)
    ensures Lookup(REPO, NONNULL) == Found(NONNULL_CLASS)
    ensures Lookup(REPO, CHECK_FOR_NULL) == Found(CHECK_FOR_NULL_CLASS)
  {
  }

  lemma SlashAtFourNotReportable(d: ClassDescriptor)
    requires |d| > 4 && d[4] == '/'
    ensures !IsReportable(d)
  {
    ReportableFifthChar(d);
  }

  lemma DocumentedNotReportable()
    ensures !IsReportable(DOCUMENTED)
  {
    assert |DOCUMENTED| > 4 && DOCUMENTED[4] == '/';
    SlashAtFourNotReportable(DOCUMENTED);
  }

  /** A missing class outside javax.annotation and jakarta.annotation resolves
      to nothing and is not reported. */
  lemma DocumentedIsSilent(onStack: seq<ClassDescriptor>)
    requires DOCUMENTED !in onStack
    ensures Nicknames(SHORTCUTS, REPO, Synthetic(DOCUMENTED), onStack) == Empty
  {
    DocumentedNotReportable();
    DocumentedUntabled();
    Lookups();
    assert Nicknames(SHORTCUTS, REPO, Synthetic(DOCUMENTED), onStack) == Classified(SHORTCUTS, REPO, Synthetic(DOCUMENTED), onStack);
    assert MissingClassTrace(DOCUMENTED) == Empty;
  }

  /** @Nonnull is a primary type qualifier: its usage comes back unchanged. */
  lemma NonnullResolves(value: AnnotationValue, onStack: seq<ClassDescriptor>)
    requires value.annotationClass == NONNULL && NONNULL !in onStack
    ensures Nicknames(SHORTCUTS, REPO, value, onStack) == Trace([value], [], [])
  {
    NonnullUntabled();
    Lookups();
    assert NONNULL_CLASS.AnnotationDescriptors() == [DOCUMENTED, TYPE_QUALIFIER];
  }

  /** The canonical CHECK_FOR_NULL usage resolves to @Nonnull(when = MAYBE). */
  lemma CheckForNullResolves(onStack: seq<ClassDescriptor>)
    requires CHECK_FOR_NULL !in onStack && NONNULL !in onStack && DOCUMENTED !in onStack
    ensures Nicknames(SHORTCUTS, REPO, Synthetic(CHECK_FOR_NULL), onStack) == Trace([NONNULL_MAYBE], [], [])
  {
    CheckForNullUntabled();
    Lookups();
    var c := CHECK_FOR_NULL_CLASS;
    var pushed := onStack + [CHECK_FOR_NULL];
    assert c.AnnotationDescriptors() == [DOCUMENTED, TYPE_QUALIFIER_NICKNAME, NONNULL];
    assert Nicknames(SHORTCUTS, REPO, Synthetic(CHECK_FOR_NULL), onStack) == Expand(SHORTCUTS, REPO, c, TYPE_QUALIFIER_NICKNAME, pushed, 3);
    DocumentedIsSilent(pushed);
    NonnullResolves(NONNULL_MAYBE, pushed);
    assert Expand(SHORTCUTS, REPO, c, TYPE_QUALIFIER_NICKNAME, pushed, 1) == Empty;
    assert Expand(SHORTCUTS, REPO, c, TYPE_QUALIFIER_NICKNAME, pushed, 2) == Empty;
  }

  const JAKARTA_NULLABLE: ClassDescriptor := "jakarta/annotation/Nullable"

  /** jakarta.annotation.Nullable is a shortcut for CheckForNull and so
      resolves to @Nonnull(when = MAYBE), as the Jakarta nullability
      regression test expects. */
  lemma JakartaNullableResolves()
    ensures Nicknames(SHORTCUTS, REPO, Synthetic(JAKARTA_NULLABLE), []) == Trace([NONNULL_MAYBE], [], [])
  {
    TableMembership();
    assert [] + [JAKARTA_NULLABLE] == [JAKARTA_NULLABLE];
    assert Nicknames(SHORTCUTS, REPO, Synthetic(JAKARTA_NULLABLE), []) == Nicknames(SHORTCUTS, REPO, Synthetic(CHECK_FOR_NULL), [JAKARTA_NULLABLE]);
    CheckForNullResolves([JAKARTA_NULLABLE]);
  }

  /** The FindBugs Nullable is not a shortcut: it is resolved through its own
      class file, which makes it a nickname of @Nonnull(when = UNKNOWN). */
  lemma FindBugsNullableResolves()
    ensures Nicknames(SHORTCUTS, REPO, Synthetic(FINDBUGS_NULLABLE), []) == Trace([NONNULL_UNKNOWN], [], [])
  {
    FindBugsNullableUntabled();
    assert Lookup(REPO, FINDBUGS_NULLABLE) == Found(FINDBUGS_NULLABLE_CLASS);
    var c := FINDBUGS_NULLABLE_CLASS;
    var pushed := [FINDBUGS_NULLABLE];
    assert [] + [FINDBUGS_NULLABLE] == pushed;
    assert c.AnnotationDescriptors() == [DOCUMENTED, NONNULL, TYPE_QUALIFIER_NICKNAME];
    assert Nicknames(SHORTCUTS, REPO, Synthetic(FINDBUGS_NULLABLE), []) == Expand(SHORTCUTS, REPO, c, TYPE_QUALIFIER_NICKNAME, pushed, 3);
    DocumentedIsSilent(pushed);
    NonnullResolves(NONNULL_UNKNOWN, pushed);
    assert Expand(SHORTCUTS, REPO, c, TYPE_QUALIFIER_NICKNAME, pushed, 1) == Empty;
    assert Expand(SHORTCUTS, REPO, c, TYPE_QUALIFIER_NICKNAME, pushed, 2) == Trace([NONNULL_UNKNOWN], [], []);
  }

  /** A nickname that names itself: the inner use is cut off and logged as a
      cycle, and the rest of the class is still resolved. */
  lemma SelfNamedCycleIsCut()
    ensures Nicknames(SHORTCUTS, REPO, Synthetic(SELF_NAMED), []) == Trace([Synthetic(NONNULL)], [], [CycleFound([SELF_NAMED])])
  {
    SelfNamedUntabled();
    assert Lookup(REPO, SELF_NAMED) == Found(SELF_NAMED_CLASS);
    var c := SELF_NAMED_CLASS;
    var pushed := [SELF_NAMED];
    assert [] + [SELF_NAMED] == pushed;
    assert c.AnnotationDescriptors() == [TYPE_QUALIFIER_NICKNAME, SELF_NAMED, NONNULL];
    assert Nicknames(SHORTCUTS, REPO, Synthetic(SELF_NAMED), []) == Expand(SHORTCUTS, REPO, c, TYPE_QUALIFIER_NICKNAME, pushed, 3);
    NonnullResolves(Synthetic(NONNULL), pushed);
    assert Expand(SHORTCUTS, REPO, c, TYPE_QUALIFIER_NICKNAME, pushed, 1) == Empty;
    assert Nicknames(SHORTCUTS, REPO, Synthetic(SELF_NAMED), pushed) == Trace([], [], [CycleFound(pushed)]);
    assert Expand(SHORTCUTS, REPO, c, TYPE_QUALIFIER_NICKNAME, pushed, 2) == Trace([], [], [CycleFound(pushed)]);
  }

  lemma NonnullNicknameResolves()
    ensures Nicknames(SHORTCUTS, REPO, Synthetic(NONNULL_NICKNAME), []) == Trace([Synthetic(NONNULL)], [], [])
  {
    NonnullNicknameUntabled();
    assert Lookup(REPO, NONNULL_NICKNAME) == Found(NONNULL_NICKNAME_CLASS);
    var c := NONNULL_NICKNAME_CLASS;
    var pushed := [NONNULL_NICKNAME];
    assert [] + [NONNULL_NICKNAME] == pushed;
    assert c.AnnotationDescriptors() == [TYPE_QUALIFIER_NICKNAME, NONNULL];
    assert Nicknames(SHORTCUTS, REPO, Synthetic(NONNULL_NICKNAME), []) == Expand(SHORTCUTS, REPO, c, TYPE_QUALIFIER_NICKNAME, pushed, 2);
    NonnullResolves(Synthetic(NONNULL), pushed);
    assert Expand(SHORTCUTS, REPO, c, TYPE_QUALIFIER_NICKNAME, pushed, 1) == Empty;
  }

  /** Where @TypeQualifierDefault({METHOD, FIELD}) applies, its other
      annotations are resolved, so a method gets @Nonnull... */
  lemma DefaultAppliesToMethods()
    ensures Defaults(SHORTCUTS, REPO, Synthetic(NONNULL_BY_DEFAULT), METHOD) == Trace([Synthetic(NONNULL)], [], [])
  {
    assert Lookup(REPO, NONNULL_BY_DEFAULT) == Found(NONNULL_BY_DEFAULT_CLASS);
    var c := NONNULL_BY_DEFAULT_CLASS;
    assert c.GetAnnotation(TYPE_QUALIFIER_DEFAULT) == Some(METHODS_AND_FIELDS);
    var entries := [EnumValue(ELEMENT_TYPE, "METHOD"), EnumValue(ELEMENT_TYPE, "FIELD")];
    assert ValueArray(METHODS_AND_FIELDS) == Entries(entries);
    assert MatchesKind(entries[0], METHOD);
    assert c.AnnotationDescriptors() == [TYPE_QUALIFIER_DEFAULT, NONNULL_NICKNAME];
    assert Defaults(SHORTCUTS, REPO, Synthetic(NONNULL_BY_DEFAULT), METHOD) == Expand(SHORTCUTS, REPO, c, TYPE_QUALIFIER_DEFAULT, [], 2);
    NonnullNicknameResolves();
    assert Expand(SHORTCUTS, REPO, c, TYPE_QUALIFIER_DEFAULT, [], 1) == Empty;
  }

  /** ...and a parameter gets nothing. */
  lemma DefaultSkipsParameters()
    ensures Defaults(SHORTCUTS, REPO, Synthetic(NONNULL_BY_DEFAULT), PARAMETER) == Empty
  {
    assert Lookup(REPO, NONNULL_BY_DEFAULT) == Found(NONNULL_BY_DEFAULT_CLASS);
    var c := NONNULL_BY_DEFAULT_CLASS;
    assert c.GetAnnotation(TYPE_QUALIFIER_DEFAULT) == Some(METHODS_AND_FIELDS);
    var entries := [EnumValue(ELEMENT_TYPE, "METHOD"), EnumValue(ELEMENT_TYPE, "FIELD")];
    assert ValueArray(METHODS_AND_FIELDS) == Entries(entries);
    NameInjective(PARAMETER, METHOD);
    NameInjective(PARAMETER, FIELD);
    assert !MatchesKind(entries[0], PARAMETER) && !MatchesKind(entries[1], PARAMETER);
  }

  const GUARDED_BY: ClassDescriptor := "javax/annotation/concurrent/GuardedBy"

  lemma GuardedByUntabled()
    ensures GUARDED_BY !in NULLABLE_CLASS_DESCRIPTORS && GUARDED_BY !in NON_NULL_CLASS_DESCRIPTORS
  {
  }

  lemma GuardedByMissing()
    ensures Lookup(REPO, GUARDED_BY) == Failed(MissingClass)
  {
  }

  lemma JavaxSlashReportable(d: ClassDescriptor)
    requires '.' !in d && |d| >= 16 && d[..16] == "javax/annotation"
    ensures IsReportable(d)
  {
    ReportableSlashForm(d);
  }

  lemma GuardedByReportable()
    ensures IsReportable(GUARDED_BY)
  {
    assert '.' !in GUARDED_BY && |GUARDED_BY| >= 16 && GUARDED_BY[..16] == "javax/annotation";
    JavaxSlashReportable(GUARDED_BY);
  }

  /** As written, the filter does not report a missing GuardedBy. */
  lemma GuardedByNotReportedAsWritten()
    ensures !IsReportableAsWritten(GUARDED_BY)
  {
    assert '.' !in GUARDED_BY;
    AsWrittenNeverReports(GUARDED_BY);
  }

  /** The intended dotted-name test reports it; the test as written does not. */
  lemma GuardedByFilterDiffers()
    ensures IsReportable(GUARDED_BY) != IsReportableAsWritten(GUARDED_BY)
  {
    GuardedByReportable();
    GuardedByNotReportedAsWritten();
  }

  /** A class in javax.annotation that cannot be found is reported missing;
      compare DocumentedIsSilent. */
  lemma MissingJavaxClassIsReported()
    ensures Nicknames(SHORTCUTS, REPO, Synthetic(GUARDED_BY), []) == Trace([], [GUARDED_BY], [])
  {
    GuardedByUntabled();
    GuardedByReportable();
    GuardedByMissing();
    assert MissingClassTrace(GUARDED_BY) == Trace([], [GUARDED_BY], []);
    assert Nicknames(SHORTCUTS, REPO, Synthetic(GUARDED_BY), []) == Classified(SHORTCUTS, REPO, Synthetic(GUARDED_BY), []);
  }
}
