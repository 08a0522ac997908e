/**
 * The annotation metadata the core consumes, as data: for a class or a method, the annotation
 * types present on it, the meta-annotation closure of each one, and the attribute map of each
 * annotation the metadata layer resolves (directly present or present as a meta-annotation).
 */
module Metadata {
  import opened Wrappers

  /** An attribute value of an annotation. */
  datatype AttrValue =
    | StringValue(s: string)
    | BooleanValue(b: bool)
    | NumberValue(n: int)
    | StringArray(items: seq<string>)
    /** An array of nested annotations, such as the `value` of a repeatable annotation's container; an entry may be null. */
    | AnnotationArray(entries: seq<Option<Attributes>>)
    /** A value of any other type (a class, an enum constant, ...). */
    | OtherValue(typeName: string)

  /** The attribute map of one annotation, keyed by attribute name. */
  datatype Attributes = Attributes(entries: map<string, AttrValue>)

  datatype AnnotationMetadata = AnnotationMetadata(
    /** getAnnotationTypes(): the annotation types directly present, in declaration order. */
    annotationTypes: seq<string>,
    /** getMetaAnnotationTypes(type); a type without an entry has no meta-annotations. */
    metaAnnotationTypes: map<string, set<string>>,
    /** getAnnotationAttributes(type); a type without an entry is not present (null). */
    attributes: map<string, Attributes>)

  /** getAnnotationAttributes(annotationName), where None stands for null. */
  function AnnotationAttributesOf(metadata: AnnotationMetadata, annotationName: string): Option<Attributes> {
    if annotationName in metadata.attributes then Some(metadata.attributes[annotationName]) else None
  }

  /** getMetaAnnotationTypes(annotationType): the names of the meta-annotations of a present annotation type. */
  function MetaAnnotationTypesOf(metadata: AnnotationMetadata, annotationType: string): set<string> {
    if annotationType in metadata.metaAnnotationTypes then metadata.metaAnnotationTypes[annotationType] else {}
  }

  /** isAnnotated(annotationName): the annotation is present directly or as a meta-annotation of a present one. */
  predicate IsAnnotated(metadata: AnnotationMetadata, annotationName: string)
    ensures annotationName in metadata.annotationTypes ==> IsAnnotated(metadata, annotationName)
    ensures metadata.annotationTypes == [] ==> !IsAnnotated(metadata, annotationName)
    ensures IsAnnotated(metadata, annotationName) ==>
      exists t :: t in metadata.annotationTypes && (t == annotationName || annotationName in MetaAnnotationTypesOf(metadata, t))
  {
    annotationName in metadata.annotationTypes ||
    exists t :: t in metadata.annotationTypes && annotationName in MetaAnnotationTypesOf(metadata, t)
  }

  /** The error AnnotationAttributes' typed accessors raise (an IllegalArgumentException). */
  datatype AttributeError =
    | AttributeNotFound(attributeName: string)
    | AttributeTypeMismatch(attributeName: string, expectedType: string)

  function GetBoolean(attributes: Attributes, attributeName: string): (r: Result<bool, AttributeError>)
    ensures r.Ok? ==> attributeName in attributes.entries && attributes.entries[attributeName] == BooleanValue(r.value)
    ensures r.Err? <==> attributeName !in attributes.entries || !attributes.entries[attributeName].BooleanValue?
  {
    if attributeName !in attributes.entries then Err(AttributeNotFound(attributeName))
    else match attributes.entries[attributeName]
      case BooleanValue(b) => Ok(b)
      case _ => Err(AttributeTypeMismatch(attributeName, "java.lang.Boolean"))
  }

  function GetString(attributes: Attributes, attributeName: string): (r: Result<string, AttributeError>)
    ensures r.Ok? ==> attributeName in attributes.entries && attributes.entries[attributeName] == StringValue(r.value)
    ensures r.Err? <==> attributeName !in attributes.entries || !attributes.entries[attributeName].StringValue?
  {
    if attributeName !in attributes.entries then Err(AttributeNotFound(attributeName))
    else match attributes.entries[attributeName]
      case StringValue(s) => Ok(s)
      case _ => Err(AttributeTypeMismatch(attributeName, "java.lang.String"))
  }

  function GetStringArray(attributes: Attributes, attributeName: string): (r: Result<seq<string>, AttributeError>)
    ensures r.Ok? ==> attributeName in attributes.entries && attributes.entries[attributeName] == StringArray(r.value)
    ensures r.Err? <==> attributeName !in attributes.entries || !attributes.entries[attributeName].StringArray?
  {
    if attributeName !in attributes.entries then Err(AttributeNotFound(attributeName))
    else match attributes.entries[attributeName]
      case StringArray(items) => Ok(items)
      case _ => Err(AttributeTypeMismatch(attributeName, "java.lang.String[]"))
  }

  /** getNumber(attributeName).intValue(). */
  function GetNumber(attributes: Attributes, attributeName: string): (r: Result<int, AttributeError>)
    ensures r.Ok? ==> attributeName in attributes.entries && attributes.entries[attributeName] == NumberValue(r.value)
    ensures r.Err? <==> attributeName !in attributes.entries || !attributes.entries[attributeName].NumberValue?
  {
    if attributeName !in attributes.entries then Err(AttributeNotFound(attributeName))
    else match attributes.entries[attributeName]
      case NumberValue(n) => Ok(n)
      case _ => Err(AttributeTypeMismatch(attributeName, "java.lang.Number"))
  }
}
