/** Annotation usages (AnnotationValue), their argument values, and the
    annotation view of a class (the part of XClass the resolver reads). */
module Annotations {
  import opened Descriptors

  datatype Option<T> = None | Some(value: T)

  /** An annotation argument value: an enum constant (EnumValue), an array of
      values, or anything else (strings, numbers, nested annotations), which the
      resolver never looks into. */
  datatype ElementValue =
    | EnumValue(desc: ClassDescriptor, name: string)
    | ArrayValue(elements: seq<ElementValue>)
    | OtherValue(text: string)

  /** One use of an annotation: its annotation class and its explicitly
      written arguments, by name. */
  datatype AnnotationValue = AnnotationValue(annotationClass: ClassDescriptor, arguments: map<string, ElementValue>)

  /** new AnnotationValue(d): a usage of class d with no arguments. */
  function Synthetic(d: ClassDescriptor): AnnotationValue {
    AnnotationValue(d, map[])
  }

  /** The annotations present on one class, in the order the class view lists them. */
  datatype XClass = XClass(annotations: seq<AnnotationValue>) {

    /** getAnnotationDescriptors(): the class of each annotation, in order. */
    function AnnotationDescriptors(): (ds: seq<ClassDescriptor>)
      ensures |ds| == |annotations|
      ensures forall i :: 0 <= i < |ds| ==> ds[i] == annotations[i].annotationClass
      decreases |annotations|
    {
      if annotations == [] then [] else [annotations[0].annotationClass] + XClass(annotations[1..]).AnnotationDescriptors()
    }

    /** getAnnotation(d): the usage of annotation class d on this class, or
        None (Java's null) when there is none. */
    function GetAnnotation(d: ClassDescriptor): (r: Option<AnnotationValue>)
      ensures r.Some? <==> d in AnnotationDescriptors()
      ensures r.Some? ==> r.value in annotations && r.value.annotationClass == d
      decreases |annotations|
    {
      if annotations == [] then None
      else if annotations[0].annotationClass == d then Some(annotations[0])
      else XClass(annotations[1..]).GetAnnotation(d)
    }
  }

  /** What `(Object[]) annotation.getValue("value")` and iterating over it
      yield: the array elements, a ClassCastException (a value that is not an
      array), or a NullPointerException (no value written, so getValue gives
      null and the for-each loop dereferences it). */
  datatype ValueCast = Elements(elements: seq<ElementValue>) | ClassCast | NullPointer

  /** The `value` array of a usage, as the code is written. */
  function ValueArrayAsWritten(a: AnnotationValue): (r: ValueCast)
    ensures r.NullPointer? <==> "value" !in a.arguments
    ensures r.Elements? <==> "value" in a.arguments && a.arguments["value"].ArrayValue?
    ensures r.Elements? ==> r.elements == a.arguments["value"].elements
  {
    if "value" !in a.arguments then NullPointer
    else match a.arguments["value"]
      case ArrayValue(es) => Elements(es)
      case _ => ClassCast
  }

  /** The `value` array as the resolver evidently means to read it: an
      omitted `value` is the annotation element's declared default, the
      empty array; a value that is not an array is the ClassCastException
      the resolver catches. */
  datatype ValueArrayResult = Entries(entries: seq<ElementValue>) | NotAnArray

  function ValueArray(a: AnnotationValue): (r: ValueArrayResult)
    ensures "value" !in a.arguments ==> r == Entries([])
    ensures ValueArrayAsWritten(a).Elements? ==> r == Entries(ValueArrayAsWritten(a).elements)
    ensures r.NotAnArray? <==> ValueArrayAsWritten(a).ClassCast?
  {
    if "value" !in a.arguments then Entries([])
    else match a.arguments["value"]
      case ArrayValue(es) => Entries(es)
      case _ => NotAnArray
  }

  /** An explicit `@TypeQualifierDefault` with no `value` written: as written
      the lookup escapes with a NullPointerException, which none of the
      resolver's catch clauses handles; the corrected reading contributes no
      element kinds. */
  lemma OmittedDefaultValueEscapes()
    ensures ValueArrayAsWritten(Synthetic(TYPE_QUALIFIER_DEFAULT)) == NullPointer
    ensures ValueArray(Synthetic(TYPE_QUALIFIER_DEFAULT)) == Entries([])
  {
  }
}
