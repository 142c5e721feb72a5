/** The two hard-coded tables of vendor nullness annotations that the
    resolver maps straight onto the canonical qualifiers. */
module NullnessTables {
  import opened Descriptors

  const ECLIPSE_NON_NULL_BY_DEFAULT: ClassDescriptor := "org/eclipse/jdt/annotation/NonNullByDefault"

  /** NON_NULL_CLASS_DESCRIPTORS, in declaration order. */
  const NON_NULL_CLASS_DESCRIPTORS: seq<ClassDescriptor> := [
    "edu/umd/cs/findbugs/annotations/NonNull",
    "android/support/annotation/NonNull",
    "androidx/annotation/NonNull",
    "jakarta/annotation/Nonnull",
    "org/jetbrains/annotations/NotNull",
    "org/eclipse/jdt/annotation/NonNull",
    ECLIPSE_NON_NULL_BY_DEFAULT,
    "org/checkerframework/checker/nullness/qual/NonNull",
    "org/checkerframework/checker/nullness/compatqual/NonNullDecl",
    "org/netbeans/api/annotations/common/NonNull",
    "lombok/NonNull"
  ]

  /** NULLABLE_CLASS_DESCRIPTORS, in declaration order. The FindBugs
      annotation edu/umd/cs/findbugs/annotations/Nullable is deliberately not
      listed: its meaning differs from the other Nullable annotations. */
  const NULLABLE_CLASS_DESCRIPTORS: seq<ClassDescriptor> := [
    "android/support/annotation/Nullable",
    "androidx/annotation/Nullable",
    "com/google/common/base/Nullable",
    "jakarta/annotation/Nullable",
    "org/apache/avro/reflect/Nullable",
    "org/jetbrains/annotations/Nullable",
    "org/eclipse/jdt/annotation/Nullable",
    "org/checkerframework/checker/nullness/qual/Nullable",
    "org/checkerframework/checker/nullness/compatqual/NullableDecl",
    "org/netbeans/api/annotations/common/NullAllowed"
  ]

  /** The two tables as one value. */
  datatype Shortcuts = Shortcuts(nullable: seq<ClassDescriptor>, nonNull: seq<ClassDescriptor>)

  const SHORTCUTS: Shortcuts := Shortcuts(NULLABLE_CLASS_DESCRIPTORS, NON_NULL_CLASS_DESCRIPTORS)

  /** The facts about the tables the rest of the analysis relies on. */
  lemma TableMembership()
    ensures "jakarta/annotation/Nullable" in NULLABLE_CLASS_DESCRIPTORS
    ensures "edu/umd/cs/findbugs/annotations/Nullable" !in NULLABLE_CLASS_DESCRIPTORS
    ensures "edu/umd/cs/findbugs/annotations/Nullable" !in NON_NULL_CLASS_DESCRIPTORS
    ensures ECLIPSE_NON_NULL_BY_DEFAULT in NON_NULL_CLASS_DESCRIPTORS
    ensures "edu/umd/cs/findbugs/annotations/NonNull" in NON_NULL_CLASS_DESCRIPTORS
    ensures |NULLABLE_CLASS_DESCRIPTORS| == 10 && |NON_NULL_CLASS_DESCRIPTORS| == 11
  {
  }

  /** No descriptor is in both tables. */
  lemma TablesDisjoint(d: ClassDescriptor)
    ensures !(d in NULLABLE_CLASS_DESCRIPTORS && d in NON_NULL_CLASS_DESCRIPTORS)
  {
  }

  /** Neither table lists the canonical qualifiers or the JSR-305
      meta-annotations, so a shortcut never leads straight back into a
      shortcut. */
  lemma CanonicalNotShortcuts(d: ClassDescriptor)
    requires d in {CHECK_FOR_NULL, NONNULL, TYPE_QUALIFIER, TYPE_QUALIFIER_NICKNAME, TYPE_QUALIFIER_DEFAULT}
    ensures d !in NULLABLE_CLASS_DESCRIPTORS && d !in NON_NULL_CLASS_DESCRIPTORS
  {
  }
}
