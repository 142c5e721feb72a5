/** Class descriptors, the JSR-305 meta-annotation descriptors the resolver
    compares against, and java.lang.annotation.ElementType. */
module Descriptors {

  /** A class descriptor in slash form, e.g. "javax/annotation/Nonnull".
      Equality is by name, as for ClassDescriptor.equals. */
  type ClassDescriptor = string

  /** The dotted class name (what ClassDescriptor.getDottedClassName gives):
      every '/' of the slash form becomes '.'. logMissingAnnotationClass
      evidently means to test this name; as written it tests getClassName(),
      the slash form (see Resolution.IsReportableAsWritten). */
  function DottedName(d: ClassDescriptor): (r: string)
    ensures |r| == |d|
    ensures forall i :: 0 <= i < |d| ==> r[i] == (if d[i] == '/' then '.' else d[i])
  {
    if d == [] then [] else [if d[0] == '/' then '.' else d[0]] + DottedName(d[1..])
  }

  predicate StartsWith(s: string, prefix: string) {
    |prefix| <= |s| && s[..|prefix|] == prefix
  }

  // javax.annotation.meta.TypeQualifier and friends, as class descriptors
  const TYPE_QUALIFIER: ClassDescriptor := "javax/annotation/meta/TypeQualifier"
  const TYPE_QUALIFIER_NICKNAME: ClassDescriptor := "javax/annotation/meta/TypeQualifierNickname"
  const TYPE_QUALIFIER_DEFAULT: ClassDescriptor := "javax/annotation/meta/TypeQualifierDefault"
  const ELEMENT_TYPE: ClassDescriptor := "java/lang/annotation/ElementType"

  /** The canonical "may be null" and "never null" qualifier classes
      (the CHECK_FOR_NULL and NONNULL descriptors of the nullness annotations). */
  const CHECK_FOR_NULL: ClassDescriptor := "javax/annotation/CheckForNull"
  const NONNULL: ClassDescriptor := "javax/annotation/Nonnull"

  /** java.lang.annotation.ElementType. */
  datatype ElementType =
    | TYPE | FIELD | METHOD | PARAMETER | CONSTRUCTOR | LOCAL_VARIABLE
    | ANNOTATION_TYPE | PACKAGE | TYPE_PARAMETER | TYPE_USE | MODULE | RECORD_COMPONENT
  {
    /** Enum.name(): the constant's identifier. */
    function Name(): string {
      match this
      case TYPE => "TYPE"
      case FIELD => "FIELD"
      case METHOD => "METHOD"
      case PARAMETER => "PARAMETER"
      case CONSTRUCTOR => "CONSTRUCTOR"
      case LOCAL_VARIABLE => "LOCAL_VARIABLE"
      case ANNOTATION_TYPE => "ANNOTATION_TYPE"
      case PACKAGE => "PACKAGE"
      case TYPE_PARAMETER => "TYPE_PARAMETER"
      case TYPE_USE => "TYPE_USE"
      case MODULE => "MODULE"
      case RECORD_COMPONENT => "RECORD_COMPONENT"
    }
  }

  /** Distinct constants have distinct names, so matching on name() picks out
      exactly the requested kind. */
  lemma NameInjective(a: ElementType, b: ElementType)
    ensures a.Name() == b.Name() <==> a == b
  {
  }
}
