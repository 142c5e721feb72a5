/** Properties of type-qualifier resolution: cycle cut-off, independence from
    the repository entries of classes on the stack, the shortcut tables,
    which usages can come out, missing-class filtering, default scoping and
    order preservation. */
module ResolutionProperties {
  import opened Descriptors
  import opened Annotations
  import opened Repository
  import opened NullnessTables
  import opened Diagnostics
  import opened Resolution

  // ---------------------------------------------------------------------
  // One step of the nickname walk

  /** A class already on the stack contributes nothing but a cycle message. */
  lemma CycleCutOff(sc: Shortcuts, repo: ClassRepository, value: AnnotationValue, onStack: seq<ClassDescriptor>)
    requires value.annotationClass in onStack
    ensures Nicknames(sc, repo, value, onStack) == Trace([], [], [CycleFound(onStack)])
  {
  }

  /** A class that is in neither table and whose lookup fails contributes no
      qualifier; a missing class is reported exactly when it is in the
      javax.annotation or jakarta.annotation namespace, any other failure is
      logged and never reported. */
  lemma LookupFailureContributesNothing(sc: Shortcuts, repo: ClassRepository, value: AnnotationValue, onStack: seq<ClassDescriptor>)
    requires value.annotationClass !in onStack
    requires value.annotationClass !in sc.nullable && value.annotationClass !in sc.nonNull
    requires Lookup(repo, value.annotationClass).Failed?
    ensures Nicknames(sc, repo, value, onStack).qualifiers == []
    ensures Lookup(repo, value.annotationClass).error == MissingClass ==>
              Nicknames(sc, repo, value, onStack).log == [] &&
              (Nicknames(sc, repo, value, onStack).missing == [value.annotationClass] <==> IsReportable(value.annotationClass)) &&
              (Nicknames(sc, repo, value, onStack).missing == [] <==> !IsReportable(value.annotationClass))
    ensures Lookup(repo, value.annotationClass).error == AnalysisError ==>
              Nicknames(sc, repo, value, onStack) == Trace([], [], [ErrorResolving(value.annotationClass)])
  {
  }

  /** The markers on a loaded class decide its contribution: a nickname is
      expanded (even if it is also a type qualifier), a type qualifier gives
      back the original usage with its arguments, anything else gives nothing. */
  lemma MarkersDecide(sc: Shortcuts, repo: ClassRepository, value: AnnotationValue, onStack: seq<ClassDescriptor>)
    requires value.annotationClass !in onStack
    requires value.annotationClass !in sc.nullable && value.annotationClass !in sc.nonNull
    requires Lookup(repo, value.annotationClass).Found?
    ensures var c := Lookup(repo, value.annotationClass).xclass;
            var t := Nicknames(sc, repo, value, onStack);
            (TYPE_QUALIFIER_NICKNAME in c.AnnotationDescriptors() ==>
               t == Expand(sc, repo, c, TYPE_QUALIFIER_NICKNAME, onStack + [value.annotationClass], |c.annotations|)) &&
            (TYPE_QUALIFIER_NICKNAME !in c.AnnotationDescriptors() && TYPE_QUALIFIER in c.AnnotationDescriptors() ==>
               t == Trace([value], [], [])) &&
            (TYPE_QUALIFIER_NICKNAME !in c.AnnotationDescriptors() && TYPE_QUALIFIER !in c.AnnotationDescriptors() ==>
               t == Empty)
  {
  }

  // ---------------------------------------------------------------------
  // The repository is never consulted for a class on the stack

  ghost predicate AgreeOffStack(r1: ClassRepository, r2: ClassRepository, onStack: seq<ClassDescriptor>) {
    forall d :: d !in onStack ==> Lookup(r1, d) == Lookup(r2, d)
  }

  /** Two repositories that differ only in classes on the stack resolve a
      usage identically. */
  lemma {:induction false} NicknamesIgnoreStackedClasses(sc: Shortcuts, r1: ClassRepository, r2: ClassRepository, value: AnnotationValue, onStack: seq<ClassDescriptor>)
    requires AgreeOffStack(r1, r2, onStack)
    ensures Nicknames(sc, r1, value, onStack) == Nicknames(sc, r2, value, onStack)
    decreases Measure(sc, r1, onStack), 2
  {
    var cls := value.annotationClass;
    if cls in onStack {
    } else if cls in sc.nullable {
      PushDecreases(sc, r1, onStack, cls);
      NicknamesIgnoreStackedClasses(sc, r1, r2, Synthetic(CHECK_FOR_NULL), onStack + [cls]);
    } else if cls in sc.nonNull {
      PushDecreases(sc, r1, onStack, cls);
      NicknamesIgnoreStackedClasses(sc, r1, r2, Synthetic(NONNULL), onStack + [cls]);
    } else {
      assert Lookup(r1, cls) == Lookup(r2, cls);
      match Lookup(r1, cls)
      case Found(c) =>
        if TYPE_QUALIFIER_NICKNAME in c.AnnotationDescriptors() {
          PushDecreases(sc, r1, onStack, cls);
          ExpandIgnoresStackedClasses(sc, r1, r2, c, TYPE_QUALIFIER_NICKNAME, onStack + [cls], |c.annotations|);
        }
      case Failed(_) =>
    }
  }

  lemma {:induction false} ExpandIgnoresStackedClasses(sc: Shortcuts, r1: ClassRepository, r2: ClassRepository, c: XClass, marker: ClassDescriptor,
                                                       onStack: seq<ClassDescriptor>, n: nat)
    requires n <= |c.annotations|
    requires AgreeOffStack(r1, r2, onStack)
    ensures Expand(sc, r1, c, marker, onStack, n) == Expand(sc, r2, c, marker, onStack, n)
    decreases Measure(sc, r1, onStack), 3, n
  {
    if n > 0 {
      ExpandIgnoresStackedClasses(sc, r1, r2, c, marker, onStack, n - 1);
      var d := c.annotations[n - 1].annotationClass;
      var v := c.GetAnnotation(d);
      if d != marker {
        NicknamesIgnoreStackedClasses(sc, r1, r2, v.value, onStack);
      }
      ExpandStepAgrees(sc, r1, r2, c, marker, onStack, n);
    }
  }

  /** One more annotation keeps two expansions equal when their shorter
      expansions and the added annotation's resolutions are equal. */
  lemma ExpandStepAgrees(sc: Shortcuts, r1: ClassRepository, r2: ClassRepository, c: XClass, marker: ClassDescriptor,
                         onStack: seq<ClassDescriptor>, n: nat)
    requires 0 < n <= |c.annotations|
    requires Expand(sc, r1, c, marker, onStack, n - 1) == Expand(sc, r2, c, marker, onStack, n - 1)
    requires var d := c.AnnotationDescriptors()[n - 1];
             d != marker ==> Nicknames(sc, r1, c.GetAnnotation(d).value, onStack) == Nicknames(sc, r2, c.GetAnnotation(d).value, onStack)
    ensures Expand(sc, r1, c, marker, onStack, n) == Expand(sc, r2, c, marker, onStack, n)
  {
  }

  // ---------------------------------------------------------------------
  // Shortcut tables

  /** A class in the nullable table resolves exactly as the synthetic
      CHECK_FOR_NULL usage does with that class pushed, whatever the usage's
      arguments and whatever the repository holds for the class. */
  lemma NullableShortcut(sc: Shortcuts, repo: ClassRepository, value: AnnotationValue, onStack: seq<ClassDescriptor>, entry: LookupResult)
    requires value.annotationClass !in onStack && value.annotationClass in sc.nullable
    ensures Nicknames(sc, WithEntry(repo, value.annotationClass, entry), value, onStack)
         == Nicknames(sc, repo, Synthetic(CHECK_FOR_NULL), onStack + [value.annotationClass])
  {
    var cls := value.annotationClass;
    var changed := WithEntry(repo, cls, entry);
    assert AgreeOffStack(changed, repo, onStack + [cls]);
    NicknamesIgnoreStackedClasses(sc, changed, repo, Synthetic(CHECK_FOR_NULL), onStack + [cls]);
  }

  /** The same for the non-null table and NONNULL. The nullable table is
      checked first, so this holds for classes outside it; for the tables of
      the resolver that is every class of the non-null table (TablesDisjoint). */
  lemma NonNullShortcut(sc: Shortcuts, repo: ClassRepository, value: AnnotationValue, onStack: seq<ClassDescriptor>, entry: LookupResult)
    requires value.annotationClass !in onStack && value.annotationClass !in sc.nullable && value.annotationClass in sc.nonNull
    ensures Nicknames(sc, WithEntry(repo, value.annotationClass, entry), value, onStack)
         == Nicknames(sc, repo, Synthetic(NONNULL), onStack + [value.annotationClass])
  {
    var cls := value.annotationClass;
    var changed := WithEntry(repo, cls, entry);
    assert AgreeOffStack(changed, repo, onStack + [cls]);
    NicknamesIgnoreStackedClasses(sc, changed, repo, Synthetic(NONNULL), onStack + [cls]);
  }

  // ---------------------------------------------------------------------
  // What can come out

  /** A class whose usage can be emitted: outside both tables, loadable,
      marked @TypeQualifier and not @TypeQualifierNickname. */
  predicate IsPrimaryQualifier(sc: Shortcuts, repo: ClassRepository, d: ClassDescriptor) {
    d !in sc.nullable && d !in sc.nonNull &&
    Lookup(repo, d).Found? &&
    TYPE_QUALIFIER_NICKNAME !in Lookup(repo, d).xclass.AnnotationDescriptors() &&
    TYPE_QUALIFIER in Lookup(repo, d).xclass.AnnotationDescriptors()
  }

  /** Every emitted usage is a primary qualifier, every reported class is a
      missing class of the qualifier namespaces, and neither was on the stack
      when the resolution started. */
  ghost predicate Sound(sc: Shortcuts, repo: ClassRepository, t: Trace, onStack: seq<ClassDescriptor>) {
    (forall i :: 0 <= i < |t.qualifiers| ==>
       IsPrimaryQualifier(sc, repo, t.qualifiers[i].annotationClass) && t.qualifiers[i].annotationClass !in onStack) &&
    (forall i :: 0 <= i < |t.missing| ==>
       IsReportable(t.missing[i]) && Lookup(repo, t.missing[i]) == Failed(MissingClass) && t.missing[i] !in onStack)
  }

  lemma SoundThen(sc: Shortcuts, repo: ClassRepository, a: Trace, b: Trace, onStack: seq<ClassDescriptor>)
    requires Sound(sc, repo, a, onStack) && Sound(sc, repo, b, onStack)
    ensures Sound(sc, repo, a.Then(b), onStack)
  {
    var t := a.Then(b);
    forall i | 0 <= i < |t.qualifiers|
      ensures IsPrimaryQualifier(sc, repo, t.qualifiers[i].annotationClass) && t.qualifiers[i].annotationClass !in onStack
    {
      if i >= |a.qualifiers| { assert t.qualifiers[i] == b.qualifiers[i - |a.qualifiers|]; }
    }
    forall i | 0 <= i < |t.missing|
      ensures IsReportable(t.missing[i]) && Lookup(repo, t.missing[i]) == Failed(MissingClass) && t.missing[i] !in onStack
    {
      if i >= |a.missing| { assert t.missing[i] == b.missing[i - |a.missing|]; }
    }
  }

  lemma SoundPopped(sc: Shortcuts, repo: ClassRepository, t: Trace, onStack: seq<ClassDescriptor>, d: ClassDescriptor)
    requires Sound(sc, repo, t, onStack + [d])
    ensures Sound(sc, repo, t, onStack)
  {
    forall i | 0 <= i < |t.qualifiers| ensures t.qualifiers[i].annotationClass !in onStack {
      assert t.qualifiers[i].annotationClass !in onStack + [d];
    }
    forall i | 0 <= i < |t.missing| ensures t.missing[i] !in onStack {
      assert t.missing[i] !in onStack + [d];
    }
  }

  lemma {:induction false} NicknamesSound(sc: Shortcuts, repo: ClassRepository, value: AnnotationValue, onStack: seq<ClassDescriptor>)
    ensures Sound(sc, repo, Nicknames(sc, repo, value, onStack), onStack)
    decreases Measure(sc, repo, onStack), 2
  {
    var cls := value.annotationClass;
    if cls in onStack {
    } else if cls in sc.nullable {
      PushDecreases(sc, repo, onStack, cls);
      NicknamesSound(sc, repo, Synthetic(CHECK_FOR_NULL), onStack + [cls]);
      SoundPopped(sc, repo, Nicknames(sc, repo, value, onStack), onStack, cls);
    } else if cls in sc.nonNull {
      PushDecreases(sc, repo, onStack, cls);
      NicknamesSound(sc, repo, Synthetic(NONNULL), onStack + [cls]);
      SoundPopped(sc, repo, Nicknames(sc, repo, value, onStack), onStack, cls);
    } else {
      match Lookup(repo, cls)
      case Found(c) =>
        if TYPE_QUALIFIER_NICKNAME in c.AnnotationDescriptors() {
          PushDecreases(sc, repo, onStack, cls);
          ExpandSound(sc, repo, c, TYPE_QUALIFIER_NICKNAME, onStack + [cls], |c.annotations|);
          SoundPopped(sc, repo, Nicknames(sc, repo, value, onStack), onStack, cls);
        }
      case Failed(_) =>
    }
  }

  lemma {:induction false} ExpandSound(sc: Shortcuts, repo: ClassRepository, c: XClass, marker: ClassDescriptor, onStack: seq<ClassDescriptor>, n: nat)
    requires n <= |c.annotations|
    ensures Sound(sc, repo, Expand(sc, repo, c, marker, onStack, n), onStack)
    decreases Measure(sc, repo, onStack), 3, n
  {
    if n > 0 {
      ExpandSound(sc, repo, c, marker, onStack, n - 1);
      var d := c.AnnotationDescriptors()[n - 1];
      if d != marker {
        NicknamesSound(sc, repo, c.GetAnnotation(d).value, onStack);
        SoundThen(sc, repo, Expand(sc, repo, c, marker, onStack, n - 1), Nicknames(sc, repo, c.GetAnnotation(d).value, onStack), onStack);
      } else {
        SoundThen(sc, repo, Expand(sc, repo, c, marker, onStack, n - 1), Empty, onStack);
      }
    }
  }

  // ---------------------------------------------------------------------
  // Missing-class filter in slash form

  lemma DottedPrefix(d: ClassDescriptor, p: ClassDescriptor)
    requires '.' !in d && '.' !in p
    ensures StartsWith(DottedName(d), DottedName(p)) <==> StartsWith(d, p)
  {
    var dd, dp := DottedName(d), DottedName(p);
    if StartsWith(dd, dp) {
      forall i | 0 <= i < |p| ensures d[i] == p[i] {
        assert dd[i] == dp[i];
        assert d[i] != '.' && p[i] != '.';
      }
      assert d[..|p|] == p;
    }
    if StartsWith(d, p) {
      forall i | 0 <= i < |p| ensures dd[i] == dp[i] {
        assert d[i] == p[i];
      }
      assert dd[..|dp|] == dp;
    }
  }

  lemma DottedLiteral(p: ClassDescriptor, q: string)
    requires |p| == |q|
    requires forall i :: 0 <= i < |p| ==> q[i] == (if p[i] == '/' then '.' else p[i])
    ensures DottedName(p) == q
  {
  }

  /** For a class descriptor in slash form (no '.'), a missing class is
      reported exactly when it lies under javax/annotation or
      jakarta/annotation, sub-packages and look-alike prefixes such as
      javax/annotationx included. */
  lemma ReportableSlashForm(d: ClassDescriptor)
    requires '.' !in d
    ensures IsReportable(d) <==> StartsWith(d, "javax/annotation") || StartsWith(d, "jakarta/annotation")
  {
    SlashPrefix(d, "javax/annotation", "javax.annotation");
    SlashPrefix(d, "jakarta/annotation", "jakarta.annotation");
  }

  /** As written, the missing-class filter never holds for a descriptor in
      slash form, so no missing class is ever reported. */
  lemma {:induction false} AsWrittenNeverReports(d: ClassDescriptor)
    requires '.' !in d
    ensures !IsReportableAsWritten(d)
  {
    if StartsWith(d, "javax.annotation") {
      PrefixCharIn(d, "javax.annotation", 5);
    } else if StartsWith(d, "jakarta.annotation") {
      PrefixCharIn(d, "jakarta.annotation", 7);
    }
  }

  lemma PrefixCharIn(s: string, prefix: string, k: nat)
    requires StartsWith(s, prefix) && k < |prefix|
    ensures prefix[k] in s
  {
    assert s[k] == s[..|prefix|][k];
  }

  lemma SlashPrefix(d: ClassDescriptor, slashed: ClassDescriptor, dotted: string)
    requires '.' !in d && '.' !in slashed
    requires |slashed| == |dotted|
    requires forall i :: 0 <= i < |slashed| ==> dotted[i] == (if slashed[i] == '/' then '.' else slashed[i])
    ensures StartsWith(DottedName(d), dotted) <==> StartsWith(d, slashed)
  {
    DottedLiteral(slashed, dotted);
    DottedPrefix(d, slashed);
  }

  // ---------------------------------------------------------------------
  // Collections of usages

  lemma ThenAssociative(a: Trace, b: Trace, c: Trace)
    ensures a.Then(b).Then(c) == a.Then(b.Then(c))
  {
  }

  /** resolveTypeQualifiers(values) resolves the usages in input order and
      appends their results: concatenating the inputs concatenates the traces. */
  lemma {:induction false} ResolveAllAppend(sc: Shortcuts, repo: ClassRepository, a: seq<AnnotationValue>, b: seq<AnnotationValue>)
    ensures ResolveAll(sc, repo, a + b) == ResolveAll(sc, repo, a).Then(ResolveAll(sc, repo, b))
    decreases |b|
  {
    if b == [] {
      assert a + b == a;
    } else {
      var init := b[..|b| - 1];
      assert (a + b)[..|a + b| - 1] == a + init;
      assert (a + b)[|a + b| - 1] == b[|b| - 1];
      ResolveAllAppend(sc, repo, a, init);
      ThenAssociative(ResolveAll(sc, repo, a), ResolveAll(sc, repo, init), Nicknames(sc, repo, b[|b| - 1], []));
    }
  }

  /** The same for the defaults entry point. */
  lemma {:induction false} DefaultsAllAppend(sc: Shortcuts, repo: ClassRepository, a: seq<AnnotationValue>, b: seq<AnnotationValue>, kind: ElementType)
    ensures DefaultsAll(sc, repo, a + b, kind) == DefaultsAll(sc, repo, a, kind).Then(DefaultsAll(sc, repo, b, kind))
    decreases |b|
  {
    if b == [] {
      assert a + b == a;
    } else {
      var init := b[..|b| - 1];
      assert (a + b)[..|a + b| - 1] == a + init;
      assert (a + b)[|a + b| - 1] == b[|b| - 1];
      DefaultsAllAppend(sc, repo, a, init, kind);
      ThenAssociative(DefaultsAll(sc, repo, a, kind), DefaultsAll(sc, repo, init, kind), Defaults(sc, repo, b[|b| - 1], kind));
    }
  }

  /** Three usages come out as the three results one after another. */
  lemma ResolveAllInOrder(sc: Shortcuts, repo: ClassRepository, x: AnnotationValue, y: AnnotationValue, z: AnnotationValue)
    ensures ResolveAll(sc, repo, [x, y, z]).qualifiers
         == Nicknames(sc, repo, x, []).qualifiers + Nicknames(sc, repo, y, []).qualifiers + Nicknames(sc, repo, z, []).qualifiers
  {
    ResolveAllAppend(sc, repo, [x], [y]);
    ResolveAllAppend(sc, repo, [x, y], [z]);
    assert [x] + [y] == [x, y];
    assert [x, y] + [z] == [x, y, z];
    ResolveAllSingle(sc, repo, x);
    ResolveAllSingle(sc, repo, y);
    ResolveAllSingle(sc, repo, z);
  }

  lemma ResolveAllSingle(sc: Shortcuts, repo: ClassRepository, x: AnnotationValue)
    ensures ResolveAll(sc, repo, [x]) == Nicknames(sc, repo, x, [])
  {
    assert [x][..0] == [];
  }

  lemma {:induction false} ResolveAllSound(sc: Shortcuts, repo: ClassRepository, values: seq<AnnotationValue>)
    ensures Sound(sc, repo, ResolveAll(sc, repo, values), [])
    decreases |values|
  {
    if values != [] {
      ResolveAllSound(sc, repo, values[..|values| - 1]);
      NicknamesSound(sc, repo, values[|values| - 1], []);
      SoundThen(sc, repo, ResolveAll(sc, repo, values[..|values| - 1]), Nicknames(sc, repo, values[|values| - 1], []), []);
    }
  }

  // ---------------------------------------------------------------------
  // Defaults scoping

  /** The usage's class loads, carries @TypeQualifierDefault, and that
      annotation's value array lists `kind`. */
  predicate DefaultsApply(sc: Shortcuts, repo: ClassRepository, d: ClassDescriptor, kind: ElementType) {
    Lookup(repo, d).Found? &&
    var c := Lookup(repo, d).xclass;
    c.GetAnnotation(TYPE_QUALIFIER_DEFAULT).Some? &&
    ValueArray(c.GetAnnotation(TYPE_QUALIFIER_DEFAULT).value).Entries? &&
    DeclaresDefaultFor(ValueArray(c.GetAnnotation(TYPE_QUALIFIER_DEFAULT).value).entries, kind)
  }

  /** A usage contributes defaults exactly when they apply, and then
      contributes every other annotation of its class resolved from an
      empty stack, once. */
  lemma DefaultsScoping(sc: Shortcuts, repo: ClassRepository, value: AnnotationValue, kind: ElementType)
    ensures DefaultsApply(sc, repo, value.annotationClass, kind) ==>
              var c := Lookup(repo, value.annotationClass).xclass;
              Defaults(sc, repo, value, kind) == Expand(sc, repo, c, TYPE_QUALIFIER_DEFAULT, [], |c.annotations|)
    ensures !DefaultsApply(sc, repo, value.annotationClass, kind) ==> Defaults(sc, repo, value, kind).qualifiers == []
  {
  }

  lemma DefaultsSound(sc: Shortcuts, repo: ClassRepository, value: AnnotationValue, kind: ElementType)
    ensures Sound(sc, repo, Defaults(sc, repo, value, kind), [])
  {
    match Lookup(repo, value.annotationClass)
    case Found(c) =>
      ExpandSound(sc, repo, c, TYPE_QUALIFIER_DEFAULT, [], |c.annotations|);
    case Failed(_) =>
  }
}
