/**
 * BeanMethod: a method of a configuration class that is annotated with @Bean, its validation
 * against CGLIB subclassing, and its equality, which is that of its method metadata.
 */
module ConfigurationMethods {
  import opened Wrappers
  import opened Metadata

  const ConfigurationAnnotation: string := "org.springframework.context.annotation.Configuration"

  /**
   * The method metadata the model needs: the reflected method's signature (declaring class, name,
   * parameter types and return type), which its equality compares, and the two modifiers
   * validation looks at.
   */
  datatype MethodMetadata = MethodMetadata(
    methodName: string,
    declaringClassName: string,
    parameterTypes: seq<string>,
    returnType: string,
    isStatic: bool,
    isOverridable: bool)

  /** A configuration class: its class metadata and the resource it was read from. */
  datatype ConfigurationClass = ConfigurationClass(metadata: AnnotationMetadata, resource: string)

  /** Where a problem was found: a resource and the element within it. */
  datatype Location = Location(resource: string, source: MethodMetadata)

  datatype Problem = Problem(message: string, location: Location)

  datatype Severity = Fatal | Error | Warning

  /** One call a ProblemReporter received. */
  datatype Report = Report(severity: Severity, problem: Problem)

  /** A ProblemReporter that keeps each reported problem, in order. */
  class ProblemReporter {
    var reported: seq<Report>

    constructor ()
      ensures reported == []
    {
      reported := [];
    }

    method Error(problem: Problem)
      modifies this
      ensures reported == old(reported) + [Report(Severity.Error, problem)]
    {
      reported := reported + [Report(Severity.Error, problem)];
    }
  }

  datatype BeanMethod = BeanMethod(metadata: MethodMetadata, configurationClass: ConfigurationClass) {
    /** getResourceLocation: the configuration class's resource, with the method as the element. */
    function ResourceLocation(): (r: Location)
      ensures r.resource == configurationClass.resource && r.source == metadata
    {
      Location(configurationClass.resource, metadata)
    }
  }

  const NonOverridablePrefix: string := "@Bean method '"
  const NonOverridableSuffix: string := "' must not be private or final; change the method's modifiers to continue"

  /** NonOverridableMethodError: names the method in its message and is located at the method. */
  function NonOverridableMethodError(bm: BeanMethod): (p: Problem)
    ensures p.location == Location(bm.configurationClass.resource, bm.metadata)
    ensures |p.message| == |NonOverridablePrefix| + |bm.metadata.methodName| + |NonOverridableSuffix|
    ensures p.message[..|NonOverridablePrefix|] == NonOverridablePrefix
    ensures p.message[|NonOverridablePrefix|..|NonOverridablePrefix| + |bm.metadata.methodName|] == bm.metadata.methodName
    ensures p.message[|NonOverridablePrefix| + |bm.metadata.methodName|..] == NonOverridableSuffix
  {
    var message := NonOverridablePrefix + bm.metadata.methodName + NonOverridableSuffix;
    assert message[..|NonOverridablePrefix|] == NonOverridablePrefix;
    Problem(message, bm.ResourceLocation())
  }

  /**
   * The problems `validate` reports: one error exactly for an instance method of a class
   * annotated with @Configuration that cannot be overridden; nothing otherwise.
   */
  function ValidationProblems(bm: BeanMethod): (r: seq<Report>)
    ensures |r| <= 1
    ensures r != [] <==>
      !bm.metadata.isStatic && IsAnnotated(bm.configurationClass.metadata, ConfigurationAnnotation) && !bm.metadata.isOverridable
    ensures bm.metadata.isStatic ==> r == []
    ensures forall rep :: rep in r ==> rep.severity == Severity.Error && rep.problem == NonOverridableMethodError(bm)
  {
    if bm.metadata.isStatic then []
    else if IsAnnotated(bm.configurationClass.metadata, ConfigurationAnnotation) && !bm.metadata.isOverridable
    then [Report(Severity.Error, NonOverridableMethodError(bm))]
    else []
  }

  /** validate: report the problems of `bm` to `problemReporter`, which otherwise keeps what it had. */
  method Validate(bm: BeanMethod, problemReporter: ProblemReporter)
    modifies problemReporter
    ensures problemReporter.reported == old(problemReporter.reported) + ValidationProblems(bm)
  {
    if bm.metadata.isStatic {
      return;
    }
    if IsAnnotated(bm.configurationClass.metadata, ConfigurationAnnotation) {
      if !bm.metadata.isOverridable {
        problemReporter.Error(NonOverridableMethodError(bm));
      }
    }
  }

  /** equals: another BeanMethod with equal method metadata; null and objects of other classes are unequal. */
  predicate Equals(bm: BeanMethod, obj: Option<BeanMethod>)
    ensures obj.None? ==> !Equals(bm, obj)
    ensures obj == Some(bm) ==> Equals(bm, obj)
    ensures Equals(bm, obj) ==>
      obj.value.metadata.declaringClassName == bm.metadata.declaringClassName &&
      obj.value.metadata.methodName == bm.metadata.methodName &&
      obj.value.metadata.parameterTypes == bm.metadata.parameterTypes &&
      obj.value.metadata.returnType == bm.metadata.returnType
    ensures obj.Some? && obj.value.metadata == bm.metadata ==> Equals(bm, obj)
  {
    obj.Some? && bm.metadata == obj.value.metadata
  }

  /** String.hashCode: the 31-polynomial over the characters, in 32-bit arithmetic. */
  function StringHash(s: string): bv32
    decreases |s|
  {
    if s == [] then 0 else StringHash(s[..|s| - 1]) * 31 + (s[|s| - 1] as int as bv32)
  }

  /** The method metadata's hash, as that of the reflected method: declaring-class name hash xor method-name hash. */
  function MethodMetadataHash(m: MethodMetadata): bv32 {
    StringHash(m.declaringClassName) ^ StringHash(m.methodName)
  }

  /** hashCode: that of the method metadata. */
  function HashCode(bm: BeanMethod): bv32 {
    MethodMetadataHash(bm.metadata)
  }

  /** The hash code depends only on the declaring class and the method name, whatever the configuration class. */
  lemma HashCodeOfSignature(a: BeanMethod, b: BeanMethod)
    requires a.metadata.declaringClassName == b.metadata.declaringClassName
    requires a.metadata.methodName == b.metadata.methodName
    ensures HashCode(a) == HashCode(b)
  {
  }

  /** equals is reflexive, symmetric and transitive, and ignores the configuration class; equal objects hash alike. */
  lemma EqualsIsConsistent(a: BeanMethod, b: BeanMethod, c: BeanMethod)
    ensures Equals(a, Some(a))
    ensures Equals(a, Some(b)) <==> Equals(b, Some(a))
    ensures Equals(a, Some(b)) && Equals(b, Some(c)) ==> Equals(a, Some(c))
    ensures Equals(a, Some(b)) <==> a.metadata == b.metadata
    ensures Equals(a, Some(b)) ==> HashCode(a) == HashCode(b)
  {
  }

  /**
   * Overloaded @Bean methods (same class and name, different parameter types) are different bean
   * methods, although their hash codes coincide.
   */
  lemma OverloadsAreDistinct(a: BeanMethod, b: BeanMethod)
    requires a.metadata.declaringClassName == b.metadata.declaringClassName
    requires a.metadata.methodName == b.metadata.methodName
    requires a.metadata.parameterTypes != b.metadata.parameterTypes
    ensures !Equals(a, Some(b)) && !Equals(b, Some(a))
    ensures HashCode(a) == HashCode(b)
  {
  }
}
