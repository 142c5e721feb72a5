/** What resolving annotation usages into type qualifiers produces, as
    functions of the repository, the usage and the stack of annotation
    classes being expanded. The methods of TypeQualifierResolver are proved
    to produce exactly these traces. */
module Resolution {
  import opened Descriptors
  import opened Annotations
  import opened Repository
  import opened NullnessTables
  import opened Diagnostics

  /** Everything one resolution does that can be observed: the qualifier
      usages appended to the result list, the classes reported to the
      lookup-failure callback, and the errors logged, each in order. */
  datatype Trace = Trace(qualifiers: seq<AnnotationValue>, missing: seq<ClassDescriptor>, log: seq<LogEntry>) {
    /** This trace followed by `t`. */
    function Then(t: Trace): Trace {
      Trace(qualifiers + t.qualifiers, missing + t.missing, log + t.log)
    }
  }

  const Empty: Trace := Trace([], [], [])

  /** Appending `a` and then `b` to what an accumulator held appends a.Then(b). */
  lemma AppendThen(q: seq<AnnotationValue>, m: seq<ClassDescriptor>, l: seq<LogEntry>, a: Trace, b: Trace)
    ensures (q + a.qualifiers) + b.qualifiers == q + a.Then(b).qualifiers
    ensures (m + a.missing) + b.missing == m + a.Then(b).missing
    ensures (l + a.log) + b.log == l + a.Then(b).log
  {
  }

  /** The test of logMissingAnnotationClass as written: getClassName()
      yields the descriptor in slash form, which is compared with the dotted
      prefixes "javax.annotation" and "jakarta.annotation". */
  predicate IsReportableAsWritten(d: ClassDescriptor) {
    StartsWith(d, "javax.annotation") || StartsWith(d, "jakarta.annotation")
  }

  /** The test as intended: a missing class is reported only when its dotted
      name starts with "javax.annotation" or "jakarta.annotation". */
  predicate IsReportable(d: ClassDescriptor) {
    StartsWith(DottedName(d), "javax.annotation") || StartsWith(DottedName(d), "jakarta.annotation")
  }

  /** The trace of logMissingAnnotationClass for a missing class d. */
  function MissingClassTrace(d: ClassDescriptor): (t: Trace)
    ensures t.qualifiers == [] && t.log == []
    ensures t.missing == [d] <==> IsReportable(d)
    ensures t.missing == [] <==> !IsReportable(d)
  {
    Trace([], if IsReportable(d) then [d] else [], [])
  }

  /** The classes whose resolution can recurse: those in the repository and
      those in the shortcut tables. Any other class fails its lookup. */
  function Universe(sc: Shortcuts, repo: ClassRepository): set<ClassDescriptor> {
    repo.classes.Keys + (set d | d in sc.nullable) + (set d | d in sc.nonNull)
  }

  function StackSet(s: seq<ClassDescriptor>): set<ClassDescriptor> {
    set d | d in s
  }

  /** Termination measure of the nickname walk: the classes that could still
      be pushed onto the stack. */
  function Measure(sc: Shortcuts, repo: ClassRepository, onStack: seq<ClassDescriptor>): nat {
    |Universe(sc, repo) - StackSet(onStack)|
  }

  /** Pushing a class that can recurse and is not yet on the stack shrinks
      the measure. */
  lemma PushDecreases(sc: Shortcuts, repo: ClassRepository, onStack: seq<ClassDescriptor>, d: ClassDescriptor)
    requires d in Universe(sc, repo) && d !in onStack
    ensures Measure(sc, repo, onStack + [d]) < Measure(sc, repo, onStack)
  {
    var before := Universe(sc, repo) - StackSet(onStack);
    var after := Universe(sc, repo) - StackSet(onStack + [d]);
    assert after == before - {d};
    assert d in before;
  }

  /** resolveTypeQualifierNicknames(value, result, onStack): the trace of
      resolving one usage with the given classes already on the stack. */
  function Nicknames(sc: Shortcuts, repo: ClassRepository, value: AnnotationValue, onStack: seq<ClassDescriptor>): Trace
    decreases Measure(sc, repo, onStack), 2
  {
    var cls := value.annotationClass;
    if cls in onStack then Trace([], [], [CycleFound(onStack)])
    else if cls in sc.nullable then
      PushDecreases(sc, repo, onStack, cls);
      Nicknames(sc, repo, Synthetic(CHECK_FOR_NULL), onStack + [cls])
    else if cls in sc.nonNull then
      PushDecreases(sc, repo, onStack, cls);
      Nicknames(sc, repo, Synthetic(NONNULL), onStack + [cls])
    else Classified(sc, repo, value, onStack)
  }

  /** The trace of a usage outside both tables once its class is pushed on
      `onStack`: a failed lookup is reported or logged, a nickname class is
      expanded, a type-qualifier class keeps the usage, any other class gives
      nothing. */
  function Classified(sc: Shortcuts, repo: ClassRepository, value: AnnotationValue, onStack: seq<ClassDescriptor>): Trace
    requires value.annotationClass !in onStack
    decreases Measure(sc, repo, onStack), 1
  {
    var cls := value.annotationClass;
    match Lookup(repo, cls)
    case Failed(MissingClass) => MissingClassTrace(cls)
    case Failed(AnalysisError) => Trace([], [], [ErrorResolving(cls)])
    case Found(c) =>
      if TYPE_QUALIFIER_NICKNAME in c.AnnotationDescriptors() then
        PushDecreases(sc, repo, onStack, cls);
        Expand(sc, repo, c, TYPE_QUALIFIER_NICKNAME, onStack + [cls], |c.annotations|)
      else if TYPE_QUALIFIER in c.AnnotationDescriptors() then Trace([value], [], [])
      else Empty
  }

  /** Resolving, in order, the first n annotations of class c other than
      `marker`, each with the stack `onStack`. */
  function Expand(sc: Shortcuts, repo: ClassRepository, c: XClass, marker: ClassDescriptor, onStack: seq<ClassDescriptor>, n: nat): Trace
    requires n <= |c.annotations|
    decreases Measure(sc, repo, onStack), 3, n
  {
    if n == 0 then Empty
    else
      var d := c.AnnotationDescriptors()[n - 1];
      Expand(sc, repo, c, marker, onStack, n - 1).Then(
        if d == marker then Empty else Nicknames(sc, repo, c.GetAnnotation(d).value, onStack))
  }

  /** resolveTypeQualifiers(values): the usages resolved in order, sharing one
      stack, which every resolution leaves empty again. */
  function ResolveAll(sc: Shortcuts, repo: ClassRepository, values: seq<AnnotationValue>): Trace {
    if values == [] then Empty
    else ResolveAll(sc, repo, values[..|values| - 1]).Then(Nicknames(sc, repo, values[|values| - 1], []))
  }

  lemma ResolveAllStep(sc: Shortcuts, repo: ClassRepository, values: seq<AnnotationValue>, i: nat)
    requires i < |values|
    ensures ResolveAll(sc, repo, values[..i + 1]) == ResolveAll(sc, repo, values[..i]).Then(Nicknames(sc, repo, values[i], []))
  {
    assert values[..i + 1][..i] == values[..i];
  }

  /** An entry of a @TypeQualifierDefault value array naming element kind `kind`. */
  predicate MatchesKind(e: ElementValue, kind: ElementType) {
    e.EnumValue? && e.desc == ELEMENT_TYPE && e.name == kind.Name()
  }

  predicate DeclaresDefaultFor(entries: seq<ElementValue>, kind: ElementType) {
    exists i :: 0 <= i < |entries| && MatchesKind(entries[i], kind)
  }

  /** The private resolveTypeQualifierDefaults(value, defaultFor, result). */
  function Defaults(sc: Shortcuts, repo: ClassRepository, value: AnnotationValue, kind: ElementType): Trace {
    var cls := value.annotationClass;
    match Lookup(repo, cls)
    case Failed(MissingClass) => MissingClassTrace(cls)
    case Failed(AnalysisError) => Trace([], [], [ErrorResolving(cls)])
    case Found(c) =>
      match c.GetAnnotation(TYPE_QUALIFIER_DEFAULT)
      case None => Empty
      case Some(defaultAnnotation) =>
        match ValueArray(defaultAnnotation)
        case Entries(entries) =>
          if DeclaresDefaultFor(entries, kind) then Expand(sc, repo, c, TYPE_QUALIFIER_DEFAULT, [], |c.annotations|)
          else Empty
        case NotAnArray => Trace([], [], [ClassCastLogged(cls)])
  }

  lemma DefaultsAllStep(sc: Shortcuts, repo: ClassRepository, values: seq<AnnotationValue>, kind: ElementType, i: nat)
    requires i < |values|
    ensures DefaultsAll(sc, repo, values[..i + 1], kind) == DefaultsAll(sc, repo, values[..i], kind).Then(Defaults(sc, repo, values[i], kind))
  {
    assert values[..i + 1][..i] == values[..i];
  }

  /** The public resolveTypeQualifierDefaults(values, elementType). */
  function DefaultsAll(sc: Shortcuts, repo: ClassRepository, values: seq<AnnotationValue>, kind: ElementType): Trace {
    if values == [] then Empty
    else DefaultsAll(sc, repo, values[..|values| - 1], kind).Then(Defaults(sc, repo, values[|values| - 1], kind))
  }
}
