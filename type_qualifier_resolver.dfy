/** TypeQualifierResolver: the static methods that resolve annotation usages
    into type qualifiers, appending to a result list and pushing and popping
    the annotation classes being expanded on a stack. Each method is proved
    to append exactly the qualifiers, missing-class reports and log entries
    of the matching function of module Resolution. */
module TypeQualifierResolver {
  import opened Descriptors
  import opened Annotations
  import opened Repository
  import opened NullnessTables
  import opened Diagnostics
  import opened LinkedLists
  import opened Resolution

  /** resolveTypeQualifiers(value): resolve one usage from an empty stack. */
  method ResolveTypeQualifiers(repo: ClassRepository, value: AnnotationValue, ctx: AnalysisContext)
    returns (result: seq<AnnotationValue>)
    modifies ctx
    ensures result == Nicknames(SHORTCUTS, repo, value, []).qualifiers
    ensures ctx.missingClasses == old(ctx.missingClasses) + Nicknames(SHORTCUTS, repo, value, []).missing
    ensures ctx.errors == old(ctx.errors) + Nicknames(SHORTCUTS, repo, value, []).log
  {
    var list := new LinkedList<AnnotationValue>();
    var onStack := new LinkedList<ClassDescriptor>();
    ResolveTypeQualifierNicknames(SHORTCUTS, repo, value, list, onStack, ctx);
    result := list.elems;
  }

  /** resolveTypeQualifiers(values): resolve the usages in order into one
      result list, sharing one stack; no usages, no work. */
  method ResolveTypeQualifierCollection(repo: ClassRepository, values: seq<AnnotationValue>, ctx: AnalysisContext)
    returns (result: seq<AnnotationValue>)
    modifies ctx
    ensures result == ResolveAll(SHORTCUTS, repo, values).qualifiers
    ensures ctx.missingClasses == old(ctx.missingClasses) + ResolveAll(SHORTCUTS, repo, values).missing
    ensures ctx.errors == old(ctx.errors) + ResolveAll(SHORTCUTS, repo, values).log
    ensures values == [] ==> result == [] && unchanged(ctx)
  {
    if values == [] {
      return [];
    }
    var list := new LinkedList<AnnotationValue>();
    var onStack := new LinkedList<ClassDescriptor>();
    for i := 0 to |values|
      invariant onStack.elems == []
      invariant list.elems == ResolveAll(SHORTCUTS, repo, values[..i]).qualifiers
      invariant ctx.missingClasses == old(ctx.missingClasses) + ResolveAll(SHORTCUTS, repo, values[..i]).missing
      invariant ctx.errors == old(ctx.errors) + ResolveAll(SHORTCUTS, repo, values[..i]).log
    {
      ResolveAllStep(SHORTCUTS, repo, values, i);
      AppendThen([], old(ctx.missingClasses), old(ctx.errors),
                 ResolveAll(SHORTCUTS, repo, values[..i]), Nicknames(SHORTCUTS, repo, values[i], []));
      ResolveTypeQualifierNicknames(SHORTCUTS, repo, values[i], list, onStack, ctx);
    }
    assert values[..|values|] == values;
    result := list.elems;
  }

  /** The public resolveTypeQualifierDefaults(values, elementType): the
      defaults each usage declares for `elementType`, in input order. */
  method ResolveTypeQualifierDefaults(repo: ClassRepository, values: seq<AnnotationValue>, elementType: ElementType, ctx: AnalysisContext)
    returns (result: seq<AnnotationValue>)
    modifies ctx
    ensures result == DefaultsAll(SHORTCUTS, repo, values, elementType).qualifiers
    ensures ctx.missingClasses == old(ctx.missingClasses) + DefaultsAll(SHORTCUTS, repo, values, elementType).missing
    ensures ctx.errors == old(ctx.errors) + DefaultsAll(SHORTCUTS, repo, values, elementType).log
  {
    var list := new LinkedList<AnnotationValue>();
    for i := 0 to |values|
      invariant list.elems == DefaultsAll(SHORTCUTS, repo, values[..i], elementType).qualifiers
      invariant ctx.missingClasses == old(ctx.missingClasses) + DefaultsAll(SHORTCUTS, repo, values[..i], elementType).missing
      invariant ctx.errors == old(ctx.errors) + DefaultsAll(SHORTCUTS, repo, values[..i], elementType).log
    {
      DefaultsAllStep(SHORTCUTS, repo, values, elementType, i);
      AppendThen([], old(ctx.missingClasses), old(ctx.errors),
                 DefaultsAll(SHORTCUTS, repo, values[..i], elementType), Defaults(SHORTCUTS, repo, values[i], elementType));
      ResolveTypeQualifierDefaultsOf(SHORTCUTS, repo, values[i], elementType, list, ctx);
    }
    assert values[..|values|] == values;
    result := list.elems;
  }

  /** The scan `for (descriptor : table) if (annotationClass.equals(descriptor))`:
      the position of the first entry equal to `d`, if any. */
  method IndexOf(table: seq<ClassDescriptor>, d: ClassDescriptor) returns (r: Option<nat>)
    ensures r.None? <==> d !in table
    ensures r.Some? ==> r.value < |table| && table[r.value] == d && d !in table[..r.value]
  {
    for i := 0 to |table|
      invariant d !in table[..i]
    {
      if table[i] == d {
        return Some(i);
      }
      assert table[..i + 1] == table[..i] + [table[i]];
    }
    assert table[..|table|] == table;
    return None;
  }

  /** resolveTypeQualifierNicknames(value, result, onStack). The stack is
      restored on every path, as the source's finally block does. */
  method ResolveTypeQualifierNicknames(sc: Shortcuts, repo: ClassRepository, value: AnnotationValue, result: LinkedList<AnnotationValue>,
                                       onStack: LinkedList<ClassDescriptor>, ctx: AnalysisContext)
    modifies result, onStack, ctx
    ensures onStack.elems == old(onStack.elems)
    ensures result.elems == old(result.elems) + Nicknames(sc, repo, value, old(onStack.elems)).qualifiers
    ensures ctx.missingClasses == old(ctx.missingClasses) + Nicknames(sc, repo, value, old(onStack.elems)).missing
    ensures ctx.errors == old(ctx.errors) + Nicknames(sc, repo, value, old(onStack.elems)).log
    decreases Measure(sc, repo, onStack.elems), 2
  {
    var annotationClass := value.annotationClass;
    var cycle := onStack.Contains(annotationClass);
    if cycle {
      ctx.LogError(CycleFound(onStack.elems));
      return;
    }
    ghost var entryStack := onStack.elems;
    ghost var expected := Nicknames(sc, repo, value, entryStack);
    onStack.Add(annotationClass);
    ghost var pushed := onStack.elems;

    // The two table scans of the try block; a match resolves the canonical
    // usage instead and skips the rest of the block.
    var nullable := IndexOf(sc.nullable, annotationClass);
    if nullable.Some? {
      PushDecreases(sc, repo, entryStack, annotationClass);
      assert expected == Nicknames(sc, repo, Synthetic(CHECK_FOR_NULL), pushed);
      ResolveTypeQualifierNicknames(sc, repo, Synthetic(CHECK_FOR_NULL), result, onStack, ctx);
    } else {
      var nonNull := IndexOf(sc.nonNull, annotationClass);
      if nonNull.Some? {
        PushDecreases(sc, repo, entryStack, annotationClass);
        assert expected == Nicknames(sc, repo, Synthetic(NONNULL), pushed);
        ResolveTypeQualifierNicknames(sc, repo, Synthetic(NONNULL), result, onStack, ctx);
      } else {
        assert expected == Classified(sc, repo, value, entryStack);
        assert pushed[..|pushed| - 1] == entryStack;
        ResolveAnnotationClass(sc, repo, value, result, onStack, ctx);
      }
    }
    assert result.elems == old(result.elems) + expected.qualifiers;
    assert ctx.missingClasses == old(ctx.missingClasses) + expected.missing;
    assert ctx.errors == old(ctx.errors) + expected.log;

    var _ := onStack.RemoveLast();
    assert pushed[..|entryStack|] == entryStack;
  }

  /** The part of resolveTypeQualifierNicknames after the shortcut tables:
      look the usage's class up (its class is already pushed) and expand it
      as a nickname, keep it as a type qualifier, or drop it; a failed lookup
      is reported or logged. */
  method ResolveAnnotationClass(sc: Shortcuts, repo: ClassRepository, value: AnnotationValue, result: LinkedList<AnnotationValue>,
                                onStack: LinkedList<ClassDescriptor>, ctx: AnalysisContext)
    requires onStack.elems != [] && onStack.elems[|onStack.elems| - 1] == value.annotationClass
    requires value.annotationClass !in onStack.elems[..|onStack.elems| - 1]
    modifies result, onStack, ctx
    ensures onStack.elems == old(onStack.elems)
    ensures result.elems == old(result.elems) + Classified(sc, repo, value, old(onStack.elems)[..|old(onStack.elems)| - 1]).qualifiers
    ensures ctx.missingClasses == old(ctx.missingClasses) + Classified(sc, repo, value, old(onStack.elems)[..|old(onStack.elems)| - 1]).missing
    ensures ctx.errors == old(ctx.errors) + Classified(sc, repo, value, old(onStack.elems)[..|old(onStack.elems)| - 1]).log
    decreases Measure(sc, repo, onStack.elems[..|onStack.elems| - 1]), 1
  {
    var annotationClass := value.annotationClass;
    ghost var pushed := onStack.elems;
    ghost var entryStack := pushed[..|pushed| - 1];
    assert pushed == entryStack + [annotationClass];
    match Lookup(repo, annotationClass) {
      case Failed(MissingClass) =>
        LogMissingAnnotationClass(annotationClass, ctx);
      case Failed(AnalysisError) =>
        ctx.LogError(ErrorResolving(annotationClass));
      case Found(c) =>
        var descriptors := c.AnnotationDescriptors();
        if TYPE_QUALIFIER_NICKNAME in descriptors {
          PushDecreases(sc, repo, entryStack, annotationClass);
          ExpandNickname(sc, repo, c, result, onStack, ctx);
        } else if TYPE_QUALIFIER in descriptors {
          result.Add(value);
        }
    }
  }

  /** The loop of resolveTypeQualifierNicknames over a nickname class's
      annotations: every one other than the nickname marker, resolved with the
      class's own stack. */
  method ExpandNickname(sc: Shortcuts, repo: ClassRepository, c: XClass, result: LinkedList<AnnotationValue>,
                        onStack: LinkedList<ClassDescriptor>, ctx: AnalysisContext)
    modifies result, onStack, ctx
    ensures onStack.elems == old(onStack.elems)
    ensures result.elems == old(result.elems) + Expand(sc, repo, c, TYPE_QUALIFIER_NICKNAME, old(onStack.elems), |c.annotations|).qualifiers
    ensures ctx.missingClasses == old(ctx.missingClasses) + Expand(sc, repo, c, TYPE_QUALIFIER_NICKNAME, old(onStack.elems), |c.annotations|).missing
    ensures ctx.errors == old(ctx.errors) + Expand(sc, repo, c, TYPE_QUALIFIER_NICKNAME, old(onStack.elems), |c.annotations|).log
    decreases Measure(sc, repo, onStack.elems), 3
  {
    var descriptors := c.AnnotationDescriptors();
    ghost var stack := onStack.elems;
    for k := 0 to |descriptors|
      invariant onStack.elems == stack
      invariant result.elems == old(result.elems) + Expand(sc, repo, c, TYPE_QUALIFIER_NICKNAME, stack, k).qualifiers
      invariant ctx.missingClasses == old(ctx.missingClasses) + Expand(sc, repo, c, TYPE_QUALIFIER_NICKNAME, stack, k).missing
      invariant ctx.errors == old(ctx.errors) + Expand(sc, repo, c, TYPE_QUALIFIER_NICKNAME, stack, k).log
    {
      var d := descriptors[k];
      ghost var before := Expand(sc, repo, c, TYPE_QUALIFIER_NICKNAME, stack, k);
      ghost var step := if d == TYPE_QUALIFIER_NICKNAME then Empty else Nicknames(sc, repo, c.GetAnnotation(d).value, stack);
      AppendThen(old(result.elems), old(ctx.missingClasses), old(ctx.errors), before, step);
      if d != TYPE_QUALIFIER_NICKNAME {
        var annotation := c.GetAnnotation(d).value;
        ResolveTypeQualifierNicknames(sc, repo, annotation, result, onStack, ctx);
      }
    }
  }

  /** logMissingAnnotationClass: report the class to the lookup-failure
      callback only when it is in the javax.annotation or jakarta.annotation
      namespace, tested on the dotted name, which is the evident intent of the
      filter; the test as written never holds (Resolution.IsReportableAsWritten). */
  method LogMissingAnnotationClass(c: ClassDescriptor, ctx: AnalysisContext)
    modifies ctx
    ensures ctx.missingClasses == old(ctx.missingClasses) + MissingClassTrace(c).missing
    ensures ctx.errors == old(ctx.errors)
  {
    var name := DottedName(c);
    if StartsWith(name, "javax.annotation") || StartsWith(name, "jakarta.annotation") {
      ctx.ReportMissingClass(c);
    }
  }

  /** The private resolveTypeQualifierDefaults(value, defaultFor, result):
      scanning stops at the first entry naming `defaultFor`, so the
      expansion is appended at most once. */
  method ResolveTypeQualifierDefaultsOf(sc: Shortcuts, repo: ClassRepository, value: AnnotationValue, defaultFor: ElementType,
                                        result: LinkedList<AnnotationValue>, ctx: AnalysisContext)
    modifies result, ctx
    ensures result.elems == old(result.elems) + Defaults(sc, repo, value, defaultFor).qualifiers
    ensures ctx.missingClasses == old(ctx.missingClasses) + Defaults(sc, repo, value, defaultFor).missing
    ensures ctx.errors == old(ctx.errors) + Defaults(sc, repo, value, defaultFor).log
  {
    match Lookup(repo, value.annotationClass) {
      case Failed(MissingClass) =>
        LogMissingAnnotationClass(value.annotationClass, ctx);
      case Failed(AnalysisError) =>
        ctx.LogError(ErrorResolving(value.annotationClass));
      case Found(c) =>
        var defaultAnnotation := c.GetAnnotation(TYPE_QUALIFIER_DEFAULT);
        if defaultAnnotation.None? {
          return;
        }
        match ValueArray(defaultAnnotation.value) {
          case Entries(entries) =>
            var declared := DeclaresDefault(entries, defaultFor);
            if declared {
              ExpandDefaults(sc, repo, c, result, ctx);
            }
          case NotAnArray =>
            ctx.LogError(ClassCastLogged(value.annotationClass));
        }
    }
  }

  /** The scan of the `value` array for `ElementType.<defaultFor>`, which
      stops at the first matching enum constant. */
  method DeclaresDefault(entries: seq<ElementValue>, defaultFor: ElementType) returns (found: bool)
    ensures found <==> DeclaresDefaultFor(entries, defaultFor)
  {
    for i := 0 to |entries|
      invariant forall k :: 0 <= k < i ==> !MatchesKind(entries[k], defaultFor)
    {
      var o := entries[i];
      if o.EnumValue? {
        if o.desc == ELEMENT_TYPE && o.name == defaultFor.Name() {
          return true;
        }
      }
    }
    return false;
  }

  /** The loop of the private resolveTypeQualifierDefaults once a matching
      entry is found: every annotation of `c` other than the defaults marker,
      each resolved on a fresh stack. */
  method ExpandDefaults(sc: Shortcuts, repo: ClassRepository, c: XClass, result: LinkedList<AnnotationValue>, ctx: AnalysisContext)
    modifies result, ctx
    ensures result.elems == old(result.elems) + Expand(sc, repo, c, TYPE_QUALIFIER_DEFAULT, [], |c.annotations|).qualifiers
    ensures ctx.missingClasses == old(ctx.missingClasses) + Expand(sc, repo, c, TYPE_QUALIFIER_DEFAULT, [], |c.annotations|).missing
    ensures ctx.errors == old(ctx.errors) + Expand(sc, repo, c, TYPE_QUALIFIER_DEFAULT, [], |c.annotations|).log
  {
    var descriptors := c.AnnotationDescriptors();
    for k := 0 to |descriptors|
      invariant result.elems == old(result.elems) + Expand(sc, repo, c, TYPE_QUALIFIER_DEFAULT, [], k).qualifiers
      invariant ctx.missingClasses == old(ctx.missingClasses) + Expand(sc, repo, c, TYPE_QUALIFIER_DEFAULT, [], k).missing
      invariant ctx.errors == old(ctx.errors) + Expand(sc, repo, c, TYPE_QUALIFIER_DEFAULT, [], k).log
    {
      var d := descriptors[k];
      ghost var before := Expand(sc, repo, c, TYPE_QUALIFIER_DEFAULT, [], k);
      ghost var step := if d == TYPE_QUALIFIER_DEFAULT then Empty else Nicknames(sc, repo, c.GetAnnotation(d).value, []);
      assert Expand(sc, repo, c, TYPE_QUALIFIER_DEFAULT, [], k + 1) == before.Then(step);
      AppendThen(old(result.elems), old(ctx.missingClasses), old(ctx.errors), before, step);
      if d != TYPE_QUALIFIER_DEFAULT {
        ResolveOnFreshStack(sc, repo, c.GetAnnotation(d).value, result, ctx);
      }
    }
  }

  /** `resolveTypeQualifierNicknames(value, result, new LinkedList<>())`. */
  method ResolveOnFreshStack(sc: Shortcuts, repo: ClassRepository, value: AnnotationValue,
                             result: LinkedList<AnnotationValue>, ctx: AnalysisContext)
    modifies result, ctx
    ensures result.elems == old(result.elems) + Nicknames(sc, repo, value, []).qualifiers
    ensures ctx.missingClasses == old(ctx.missingClasses) + Nicknames(sc, repo, value, []).missing
    ensures ctx.errors == old(ctx.errors) + Nicknames(sc, repo, value, []).log
  {
    var onStack := new LinkedList<ClassDescriptor>();
    ResolveTypeQualifierNicknames(sc, repo, value, result, onStack, ctx);
  }
}
