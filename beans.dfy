/**
 * The bean-definition side the core writes to: a bean definition whose fields are set in
 * place, the holder pairing a definition with its name, and a registry mapping bean names to
 * definitions together with the two strategies of the bean factory behind it.
 */
module Beans {
  import opened Wrappers
  import opened Metadata

  /** BeanDefinition.ROLE_APPLICATION, ROLE_SUPPORT and ROLE_INFRASTRUCTURE. */
  const RoleApplication: int := 0
  const RoleSupport: int := 1
  const RoleInfrastructure: int := 2

  /** The declarative settings copied onto a definition from common annotations. */
  datatype CommonSettings = CommonSettings(
    lazyInit: Option<bool>,
    primary: bool,
    dependsOn: Option<seq<string>>,
    role: int,
    description: Option<string>)

  class BeanDefinition {
    var beanClassName: Option<string>
    var source: Option<string>
    var role: int
    var lazyInit: Option<bool>
    var primary: bool
    var dependsOn: Option<seq<string>>
    var description: Option<string>
    /** The class metadata of an annotated bean definition; None for a definition that is not annotated. */
    const metadata: Option<AnnotationMetadata>

    /** A definition in the state its constructor leaves it: application role, nothing else set. */
    constructor (beanClassName: Option<string>, metadata: Option<AnnotationMetadata>)
      ensures this.beanClassName == beanClassName && this.metadata == metadata
      ensures source == None && role == RoleApplication
      ensures Settings() == CommonSettings(None, false, None, RoleApplication, None)
    {
      this.beanClassName := beanClassName;
      this.metadata := metadata;
      source := None;
      role := RoleApplication;
      lazyInit := None;
      primary := false;
      dependsOn := None;
      description := None;
    }

    function Settings(): CommonSettings
      reads this
    {
      CommonSettings(lazyInit, primary, dependsOn, role, description)
    }
  }

  /** BeanDefinitionHolder: a definition with the name it is registered under. */
  datatype BeanDefinitionHolder = BeanDefinitionHolder(definition: BeanDefinition, beanName: string)

  /** What a registry is, as far as unwrapping its bean factory is concerned. */
  datatype RegistryKind = DefaultListableBeanFactory | GenericApplicationContext | OtherRegistry

  /** The dependency comparator of a bean factory; NoComparator stands for null. */
  datatype DependencyComparator =
    | NoComparator
    | Comparator(isAnnotationAwareOrderComparator: bool, name: string)

  /** The autowire-candidate resolver of a bean factory. */
  datatype AutowireCandidateResolver =
    CandidateResolver(isContextAnnotationAutowireCandidateResolver: bool, name: string)

  /**
   * A bean-definition registry. For a registry that is, or wraps, a DefaultListableBeanFactory,
   * the two strategy fields belong to that factory; for any other registry they are never read.
   */
  class Registry {
    const kind: RegistryKind
    var beanDefinitions: map<string, BeanDefinition>
    var dependencyComparator: DependencyComparator
    var autowireCandidateResolver: AutowireCandidateResolver

    constructor (kind: RegistryKind, beanDefinitions: map<string, BeanDefinition>,
                 dependencyComparator: DependencyComparator, autowireCandidateResolver: AutowireCandidateResolver)
      ensures this.kind == kind && this.beanDefinitions == beanDefinitions
      ensures this.dependencyComparator == dependencyComparator
      ensures this.autowireCandidateResolver == autowireCandidateResolver
    {
      this.kind := kind;
      this.beanDefinitions := beanDefinitions;
      this.dependencyComparator := dependencyComparator;
      this.autowireCandidateResolver := autowireCandidateResolver;
    }

    predicate ContainsBeanDefinition(beanName: string)
      reads this
    {
      beanName in beanDefinitions
    }

    method RegisterBeanDefinition(beanName: string, definition: BeanDefinition)
      modifies this`beanDefinitions
      ensures beanDefinitions == old(beanDefinitions)[beanName := definition]
    {
      beanDefinitions := beanDefinitions[beanName := definition];
    }
  }
}
