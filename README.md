# Spring bean-definition metadata, modelled in Dafny

This project models the bean-definition metadata layer of the Spring container. Annotations are represented as data: each annotation type name maps to its attribute map and its meta-annotation closure. It has four parts:

- **Bean names** (`AnnotationBeanNameGenerator`).
  - A bean's name is the non-empty String `value` that its stereotype annotations agree on:
    - `@Component`;
    - any annotation meta-annotated with `@Component`;
    - `javax.annotation.ManagedBean`;
    - `javax.inject.Named`.
  - Two stereotypes that disagree are an error.
  - Without an explicit name, or with a blank one, the bean gets the decapitalized short name of its class.
  - The generator caches each annotation type's meta-annotation closure, with compute-if-absent.
- **Annotation-config bootstrap and common annotations** (`AnnotationConfigUtils`).
  - `registerAnnotationConfigProcessors` works on any registry:
    - when the registry is, or wraps, a `DefaultListableBeanFactory`, it replaces that factory's dependency comparator with the annotation-aware order comparator, unless the comparator is already of that kind;
    - under the same condition, it replaces the autowire candidate resolver with a `ContextAnnotationAutowireCandidateResolver`, unless the resolver is already of that kind;
    - on every registry, it registers each of up to six fixed infrastructure post-processors whose name is still free, with role `ROLE_INFRASTRUCTURE`;
    - it returns the holders of exactly the definitions it registered, in registration order.
  - `processCommonDefinitionAnnotations` copies `@Lazy` (with its fallback to the definition's own metadata), `@Primary`, `@DependsOn`, `@Role` and `@Description` onto a definition.
  - `attributesForRepeatable` merges a repeatable annotation with the contents of its container into an insertion-ordered set.
  - `applyScopedProxyMode` chooses between keeping a definition and wrapping it in a scoped proxy.
- **`@Bean` method validation** (`BeanMethod`).
  - An instance `@Bean` method of a `@Configuration` class must be overridable, or one error is reported to the problem reporter.
  - Equality and hash code are those of the method metadata.
- **Spring properties** (`SpringProperties`).
  - A mutable local property map is consulted before the JVM system properties.
  - `setProperty` with null removes an entry.
  - `setFlag` stores `"true"`.
  - `getFlag` parses the value as `Boolean.parseBoolean` does.

The modules follow the structure of the program:

- `Wrappers` holds `Option` and `Result`.
- `JavaText` holds the JDK and `StringUtils` character and string predicates, on ASCII.
- `Metadata` is the annotation-metadata table and the typed attribute getters.
- `Beans` holds the `BeanDefinition` class, `BeanDefinitionHolder` and the `Registry` class.
- `BeanNaming` holds the generator class and its cache.
- `AnnotationConfig`.
- `ConfigurationMethods` covers `BeanMethod` and a recording `ProblemReporter` class.
- `SpringCore` holds the `SpringProperties` class.

State that the source updates in place is kept in classes:

- the generator's cache;
- the registry's map and strategies;
- a definition's settings;
- the reporter's list;
- the local property map.

Every method is proved against a function of its inputs and old state, and the properties are proved about those functions. For the name generator, that state includes the cache: its new contents are the old cache extended along the scanned annotation types. Exceptions become returned errors:

- `NamingError`: the inconsistent-names `IllegalStateException` and the failed `Assert.state` of a missing class name;
- `AttributeError`: the typed getters' `IllegalArgumentException`;
- `RepeatableError`: a container `value` that cannot be cast to an array of annotations.

## Model

| member | source | states |
|---|---|---|
| BeanNaming.ExplicitName | spring-context/src/main/java/org/springframework/context/annotation/AnnotationBeanNameGenerator.java:110-118 | Given the contributed names: none gives null. Names that all agree give that name. Two different names anywhere give the inconsistent-names error, and only then. The error pairs the first name with the first name that differs from it. |
| BeanNaming.IsStereotypeWithNameValue | spring-context/src/main/java/org/springframework/context/annotation/AnnotationBeanNameGenerator.java:135-144 | Only an annotation whose attributes are present and contain `value` qualifies. Such an annotation qualifies when it is `@Component`, `javax.annotation.ManagedBean` or `javax.inject.Named`, or is meta-annotated with `@Component`. |
| BeanNaming.Contribution | spring-context/src/main/java/org/springframework/context/annotation/AnnotationBeanNameGenerator.java:104-121 | An annotation type without attributes contributes nothing. A contributed name is non-empty, comes from a qualifying stereotype, and is that annotation's String `value`. |
| BeanNaming.Contributions | spring-context/src/main/java/org/springframework/context/annotation/AnnotationBeanNameGenerator.java:101-122 | The types contribute at most one name each, collected in the order of the types. |
| BeanNaming.ContributionsMembers | spring-context/src/main/java/org/springframework/context/annotation/AnnotationBeanNameGenerator.java:102-121 | A name is collected exactly when some present annotation type contributes it, and every collected name is non-empty. |
| BeanNaming.ContributionsAppend | spring-context/src/main/java/org/springframework/context/annotation/AnnotationBeanNameGenerator.java:102-123 | Scanning two runs of annotation types collects the names of the first followed by those of the second. |
| BeanNaming.FirstDifferent | spring-context/src/main/java/org/springframework/context/annotation/AnnotationBeanNameGenerator.java:114 | The index it returns is the first position at or after the start whose name differs from the given one, or the end if there is none. |
| BeanNaming.ConflictIsFinal | spring-context/src/main/java/org/springframework/context/annotation/AnnotationBeanNameGenerator.java:114-117 | Once the names seen so far conflict, further names do not change the outcome, because the exception ends the scan. |
| BeanNaming.AgreementIsExplicit | spring-context/src/main/java/org/springframework/context/annotation/AnnotationBeanNameGenerator.java:114-118 | Names that all equal the first yield that name. |
| BeanNaming.FirstConflict | spring-context/src/main/java/org/springframework/context/annotation/AnnotationBeanNameGenerator.java:114-117 | After names that all agree, one different name gives the error that names the agreed name and the new one. |
| BeanNaming.CustomStereotypeQualifiesThroughComponent | spring-context/src/main/java/org/springframework/context/annotation/AnnotationBeanNameGenerator.java:138-143 | An annotation other than Component, ManagedBean and Named qualifies exactly when Component is among its meta-annotations and its attributes are non-null with a `value` key. |
| BeanNaming.ContributionIsNonEmptyStringValue | spring-context/src/main/java/org/springframework/context/annotation/AnnotationBeanNameGenerator.java:104-113 | An annotation contributes `v` exactly when it is present, qualifies as a stereotype with a `value`, and that `value` is the non-empty String `v`. A non-String or empty value contributes nothing. |
| BeanNaming.AgreeingStereotypesNameTheBean | spring-context/src/main/java/org/springframework/context/annotation/AnnotationBeanNameGenerator.java:82-89 | When at least one stereotype suggests `v` and the rest suggest `v` or nothing, the bean is named `v` if `v` has text. Otherwise, for a blank `v` that passed the hasLength test, it gets the default name. |
| BeanNaming.DifferingStereotypesConflict | spring-context/src/main/java/org/springframework/context/annotation/AnnotationBeanNameGenerator.java:114-117 | Two stereotypes that suggest different names make name generation fail with the inconsistent-names error. |
| BeanNaming.ContributionIsContributed | spring-context/src/main/java/org/springframework/context/annotation/AnnotationBeanNameGenerator.java:102-121 | The name an annotation type contributes is among the names the scan collects. |
| BeanNaming.UnnamedBeanGetsDefaultName | spring-context/src/main/java/org/springframework/context/annotation/AnnotationBeanNameGenerator.java:82-89 | With no stereotype suggesting a name, the generated name is the default name. |
| BeanNaming.Decapitalize | spring-context/src/main/java/org/springframework/context/annotation/AnnotationBeanNameGenerator.java:171 | The length is kept. A name whose first two characters are upper-case is returned unchanged. Otherwise the first character is lower-cased and the rest kept. An upper-case first character in the result means the two-capitals case. |
| BeanNaming.AfterLastDot | spring-context/src/main/java/org/springframework/context/annotation/AnnotationBeanNameGenerator.java:170 | The result is the suffix of the class name after its last '.'. It contains no '.', and the character before it is a '.' whenever it is shorter than the whole name. |
| BeanNaming.ShortName | spring-context/src/main/java/org/springframework/context/annotation/AnnotationBeanNameGenerator.java:160-163 | The short name contains no '$' and is never longer than the class name. It is the part after the last '.' when that part has no nested-class '$'. |
| BeanNaming.DollarsToDots | spring-context/src/main/java/org/springframework/context/annotation/AnnotationBeanNameGenerator.java:170 | Every '$' becomes '.' and every other character is kept in place. A name without '$' is returned as it is. |
| BeanNaming.ShortNameOfNested | spring-context/src/main/java/org/springframework/context/annotation/AnnotationBeanNameGenerator.java:161-163 | The short name of an inner class `package.Outer$Inner` is `Outer.Inner`. |
| BeanNaming.DollarsToDotsOfBinaryName | spring-context/src/main/java/org/springframework/context/annotation/AnnotationBeanNameGenerator.java:161-163 | The binary name `Outer$Inner` of an inner class is written `Outer.Inner`. |
| BeanNaming.DefaultBeanNameOfNested | spring-context/src/main/java/org/springframework/context/annotation/AnnotationBeanNameGenerator.java:159-171 | The default name of an inner class `package.Outer$Inner` is `Outer.Inner` decapitalized. |
| BeanNaming.DefaultBeanName | spring-context/src/main/java/org/springframework/context/annotation/AnnotationBeanNameGenerator.java:167-171 | A missing bean class name is the state failure, and only then. Otherwise the default name is as long as the short class name. |
| BeanNaming.AfterLastDotOfQualified | spring-context/src/main/java/org/springframework/context/annotation/AnnotationBeanNameGenerator.java:160-163 | For `package.Simple` with no '.' in `Simple`, the part after the last dot is `Simple`. |
| BeanNaming.ShortNameOfQualified | spring-context/src/main/java/org/springframework/context/annotation/AnnotationBeanNameGenerator.java:160-163 | The short name of a top-level class `package.Simple` is `Simple`. |
| BeanNaming.DefaultBeanNameOfQualified | spring-context/src/main/java/org/springframework/context/annotation/AnnotationBeanNameGenerator.java:159-171 | The default name of a top-level class `package.Simple` is `Simple` decapitalized. |
| BeanNaming.ShortNameOfFooServiceImpl | spring-context/src/main/java/org/springframework/context/annotation/AnnotationBeanNameGenerator.java:170 | The short name of `com.xyz.FooServiceImpl` is `FooServiceImpl`. |
| BeanNaming.DecapitalizeFooServiceImpl | spring-context/src/main/java/org/springframework/context/annotation/AnnotationBeanNameGenerator.java:171 | `FooServiceImpl` decapitalizes to `fooServiceImpl`. |
| BeanNaming.DefaultBeanNameOfFooServiceImpl | spring-context/src/main/java/org/springframework/context/annotation/AnnotationBeanNameGenerator.java:167-171 | `com.xyz.FooServiceImpl` gets the default name `fooServiceImpl`. |
| BeanNaming.ShortNameOfUrlFooServiceImpl | spring-context/src/main/java/org/springframework/context/annotation/AnnotationBeanNameGenerator.java:170 | The short name of `com.xyz.URLFooServiceImpl` is `URLFooServiceImpl`. |
| BeanNaming.DefaultBeanNameOfUrlFooServiceImpl | spring-context/src/main/java/org/springframework/context/annotation/AnnotationBeanNameGenerator.java:167-171 | `com.xyz.URLFooServiceImpl` keeps its two leading capitals: its default name is `URLFooServiceImpl`. |
| BeanNaming.ShortNameOfMyJdbcDao | spring-context/src/main/java/org/springframework/context/annotation/AnnotationBeanNameGenerator.java:160 | The short name of `mypackage.MyJdbcDao` is `MyJdbcDao`. |
| BeanNaming.DecapitalizeMyJdbcDao | spring-context/src/main/java/org/springframework/context/annotation/AnnotationBeanNameGenerator.java:160 | `MyJdbcDao` decapitalizes to `myJdbcDao`. |
| BeanNaming.DefaultBeanNameOfMyJdbcDao | spring-context/src/main/java/org/springframework/context/annotation/AnnotationBeanNameGenerator.java:159-171 | `mypackage.MyJdbcDao` gets the default name `myJdbcDao`, as the documentation promises. |
| BeanNaming.CacheLookupIsStable | spring-context/src/main/java/org/springframework/context/annotation/AnnotationBeanNameGenerator.java:105-108 | A lookup through the cache, once it has grown by compute-if-absent, gives what the same lookup gave before. |
| BeanNaming.CacheAfterExtends | spring-context/src/main/java/org/springframework/context/annotation/AnnotationBeanNameGenerator.java:105-108 | The cache only grows. Existing entries keep their value. The new keys are exactly the scanned annotation types that have attributes, each mapped to its meta-annotation closure. |
| BeanNaming.ScanStep | spring-context/src/main/java/org/springframework/context/annotation/AnnotationBeanNameGenerator.java:102-121 | One more loop iteration appends that type's contribution, and a present type's closure is added to the cache. |
| BeanNaming.ConflictIsReported | spring-context/src/main/java/org/springframework/context/annotation/AnnotationBeanNameGenerator.java:114-117 | A name that differs from the one agreed so far makes the whole scan end in the error that names both. |
| BeanNaming.AnnotationBeanNameGenerator.constructor | spring-context/src/main/java/org/springframework/context/annotation/AnnotationBeanNameGenerator.java:76 | The cache starts empty. |
| BeanNaming.AnnotationBeanNameGenerator.MetaAnnotationTypes | spring-context/src/main/java/org/springframework/context/annotation/AnnotationBeanNameGenerator.java:105-108 | For compute-if-absent, an existing entry is returned unchanged, and a missing one is computed from the metadata and stored. |
| BeanNaming.AnnotationBeanNameGenerator.ContributionThroughCache | spring-context/src/main/java/org/springframework/context/annotation/AnnotationBeanNameGenerator.java:103-113 | One loop iteration up to the name check yields that type's contribution as the original cache gives it, and caches the closure of a present type with compute-if-absent. |
| BeanNaming.AnnotationBeanNameGenerator.DetermineBeanNameFromAnnotation | spring-context/src/main/java/org/springframework/context/annotation/AnnotationBeanNameGenerator.java:98-125 | The loop returns the scan outcome of the names contributed by the annotation types, in order. After a full scan the cache holds each present type's closure. After an early error it holds the closures scanned up to that point. |
| BeanNaming.AnnotationBeanNameGenerator.GenerateBeanName | spring-context/src/main/java/org/springframework/context/annotation/AnnotationBeanNameGenerator.java:80-90 | The result is the explicit name if it has text. Otherwise it is the default name, and the naming error when the scan conflicts. Existing cache entries are kept. Without metadata the cache is unchanged; with metadata it is the old cache extended along a prefix of the annotation types. |
| BeanNaming.AnnotationBeanNameGenerator.GenerateBeanNameTwice | spring-context/src/main/java/org/springframework/context/annotation/AnnotationBeanNameGenerator.java:76-90 | Naming the same definition twice gives the same result both times, the one due for the cache before the first call. |
| BeanNaming.ContributionsIgnoreCacheGrowth | spring-context/src/main/java/org/springframework/context/annotation/AnnotationBeanNameGenerator.java:76-125 | The names the annotation types contribute do not change when the cache has grown by scanning the same metadata. |
| BeanNaming.BeanNameIgnoresOwnCacheGrowth | spring-context/src/main/java/org/springframework/context/annotation/AnnotationBeanNameGenerator.java:80-125 | The generated name of a definition does not change when the cache has grown by scanning its own metadata. |
| BeanNaming.BeanName | spring-context/src/main/java/org/springframework/context/annotation/AnnotationBeanNameGenerator.java:80-90 | Without metadata the name is the default name. A successful name is the default name or a contributed name with text. A failure is the default name's failure or the inconsistent-names error. |
| AnnotationConfig.ProcessorNamesDistinct | spring-context/src/main/java/org/springframework/context/annotation/AnnotationConfigUtils.java:65-118 | The six infrastructure processors have pairwise different bean names. |
| AnnotationConfig.ConsideredProcessorsMembers | spring-context/src/main/java/org/springframework/context/annotation/AnnotationConfigUtils.java:161-209 | Of six processors with distinct names, as the blocks consider them: the names stay distinct. The first, second, fifth and sixth are always considered. The third is considered exactly when JSR-250 is present, and the fourth exactly when JPA is present. |
| AnnotationConfig.ConsideredNamesAreNew | spring-context/src/main/java/org/springframework/context/annotation/AnnotationConfigUtils.java:161-209 | Each block's name differs from the names of every block considered before it, so no block can find its own name registered by an earlier block. |
| AnnotationConfig.InfrastructureProcessorsMembers | spring-context/src/main/java/org/springframework/context/annotation/AnnotationConfigUtils.java:161-209 | Each processor is considered at most once. The configuration, autowired and both event-listener processors are always considered. The JSR-250 processor is considered exactly when JSR-250 is present, and the persistence processor exactly when JPA is present. |
| AnnotationConfig.UnregisteredMembers | spring-context/src/main/java/org/springframework/context/annotation/AnnotationConfigUtils.java:163-207 | A processor is pending exactly when it is considered and its name is not yet registered. None is pending once every name is taken. |
| AnnotationConfig.UnregisteredKeepsDistinct | spring-context/src/main/java/org/springframework/context/annotation/AnnotationConfigUtils.java:163-207 | When the considered processors have distinct names, so do the pending ones. |
| AnnotationConfig.HolderEntriesMembers | spring-context/src/main/java/org/springframework/context/annotation/AnnotationConfigUtils.java:166 | Every holder's name is a key, and every key comes from a holder. With distinct names, each key maps to its holder's definition. |
| AnnotationConfig.HolderNamesArePending | spring-context/src/main/java/org/springframework/context/annotation/AnnotationConfigUtils.java:161-209 | Every returned holder is named after a considered processor whose name was not in the registry before the call. |
| AnnotationConfig.BootstrapSkip | spring-context/src/main/java/org/springframework/context/annotation/AnnotationConfigUtils.java:163-207 | A block whose name is already registered leaves the registry and the returned holders as they were, and so keeps the bootstrap invariant. |
| AnnotationConfig.HoldersDefineAppend | spring-context/src/main/java/org/springframework/context/annotation/AnnotationConfigUtils.java:166 | Adding the holder of one more processor, named after it and defining its class, keeps holders and processors in one-to-one order. |
| AnnotationConfig.HolderEntriesAppend | spring-context/src/main/java/org/springframework/context/annotation/AnnotationConfigUtils.java:166 | One more holder adds exactly its own name and definition to the entries. |
| AnnotationConfig.HoldersDefineNames | spring-context/src/main/java/org/springframework/context/annotation/AnnotationConfigUtils.java:161-209 | The name of every processor that a holder defines is among the holder entries. |
| AnnotationConfig.BootstrapAdd | spring-context/src/main/java/org/springframework/context/annotation/AnnotationConfigUtils.java:163-166 | A block whose name is free adds exactly its own entry and holder, and so keeps the bootstrap invariant. |
| AnnotationConfig.BootstrappedCovers | spring-context/src/main/java/org/springframework/context/annotation/AnnotationConfigUtils.java:161-209 | After the blocks have run, every considered processor's name is registered. |
| AnnotationConfig.BootstrappedKeepsInitial | spring-context/src/main/java/org/springframework/context/annotation/AnnotationConfigUtils.java:163-207 | Every definition registered before the call, under an infrastructure name or any other, is still registered, unchanged. |
| AnnotationConfig.RegisterPostProcessor | spring-context/src/main/java/org/springframework/context/annotation/AnnotationConfigUtils.java:212-217 | The definition gets the infrastructure role and is registered under the bean name, nothing else in the registry changes, and the holder pairs that definition with that name. |
| AnnotationConfig.DefineAndRegister | spring-context/src/main/java/org/springframework/context/annotation/AnnotationConfigUtils.java:164-166 | A fresh definition of the processor's class, from the source, with the infrastructure role, is registered under the processor's name. Nothing else in the registry changes. |
| AnnotationConfig.RegisterUnlessPresent | spring-context/src/main/java/org/springframework/context/annotation/AnnotationConfigUtils.java:163-207 | One guarded block keeps the bootstrap invariant. When the processor is enabled and its name is free, one holder is appended after the old ones. That holder has the processor's name and a fresh infrastructure definition of its class from the source. The registry gains exactly that entry. Otherwise the holders and the registry are unchanged. |
| AnnotationConfig.InstallAnnotationStrategies | spring-context/src/main/java/org/springframework/context/annotation/AnnotationConfigUtils.java:151-158 | The comparator is replaced by AnnotationAwareOrderComparator.INSTANCE exactly when a DefaultListableBeanFactory can be unwrapped and the current one is not of that kind. The resolver is replaced by a new ContextAnnotationAutowireCandidateResolver under the same condition. Otherwise both are unchanged. |
| AnnotationConfig.HasDefaultListableBeanFactory | spring-context/src/main/java/org/springframework/context/annotation/AnnotationConfigUtils.java:220-231 | Unwrapping succeeds for a `DefaultListableBeanFactory` and for a `GenericApplicationContext`, and fails for any other registry. |
| AnnotationConfig.RegisterBothUnlessPresent | spring-context/src/main/java/org/springframework/context/annotation/AnnotationConfigUtils.java:163-207 | Two consecutive blocks for differently named processors keep the bootstrap invariant. The processors considered grow by those whose flag is set, in order. |
| AnnotationConfig.RegisterConsideredProcessors | spring-context/src/main/java/org/springframework/context/annotation/AnnotationConfigUtils.java:161-209 | After the six blocks for any six distinctly named processors, the holders are exactly the considered ones whose name was free, in the fixed order. Each is freshly defined from its class and the source with the infrastructure role. The registry is the old one plus those holders' entries. |
| AnnotationConfig.RegisterInfrastructureProcessors | spring-context/src/main/java/org/springframework/context/annotation/AnnotationConfigUtils.java:161-209 | After the six blocks, the holders are exactly the considered processors whose name was free, in the fixed order, each defined from its class and the source with the infrastructure role. The registry is the old one plus those holders' entries. |
| AnnotationConfig.RegisterAnnotationConfigProcessors | spring-context/src/main/java/org/springframework/context/annotation/AnnotationConfigUtils.java:145-209 | The strategies are installed as above. The returned holders are exactly those newly registered, in order, with fresh infrastructure definitions from the source. Pre-existing entries are untouched. Every considered name is registered afterwards. |
| AnnotationConfig.BootstrapTwice | spring-context/src/main/java/org/springframework/context/annotation/AnnotationConfigUtils.java:145-209 | A second call on the same registry returns no holders. |
| AnnotationConfig.ApplyRoleAndDescription | spring-context/src/main/java/org/springframework/context/annotation/AnnotationConfigUtils.java:257-264 | Role and description are overwritten only when their annotation is present, from its `value`. A failed read stops the step and is reported. The other settings are untouched. |
| AnnotationConfig.EffectiveLazy | spring-context/src/main/java/org/springframework/context/annotation/AnnotationConfigUtils.java:238-247 | The `@Lazy` on the given metadata wins. Only when it is absent and the definition's own metadata differs is that one's `@Lazy` used. Nothing applies exactly when neither has one. |
| AnnotationConfig.ApplyFromDependsOn | spring-context/src/main/java/org/springframework/context/annotation/AnnotationConfigUtils.java:252-264 | dependsOn, role and description are each overwritten only when their annotation is present, from its `value`. Failure happens exactly when one of those reads fails. Lazy-init and primary are untouched. |
| AnnotationConfig.ApplyCommonDefinitionAnnotations | spring-context/src/main/java/org/springframework/context/annotation/AnnotationConfigUtils.java:237-265 | Lazy-init comes from `metadata`'s @Lazy. Failing that, and only when the definition's own metadata differs, it comes from that metadata's @Lazy; with neither it is unchanged. Primary is never cleared and, on success, is set exactly when @Primary is present. dependsOn, role and description are unchanged when their annotation is absent. Failure happens exactly when one of the reads fails. |
| AnnotationConfig.CommonDefinitionAnnotationsCopied | spring-context/src/main/java/org/springframework/context/annotation/AnnotationConfigUtils.java:252-264 | On success, a present @DependsOn, @Role and @Description each set their setting to their `value`. |
| AnnotationConfig.ProcessCommonDefinitionAnnotations | spring-context/src/main/java/org/springframework/context/annotation/AnnotationConfigUtils.java:237-265 | The definition's settings after the in-place updates, and the failure returned, are those ApplyCommonDefinitionAnnotations gives for its old settings. |
| AnnotationConfig.ProcessOwnCommonDefinitionAnnotations | spring-context/src/main/java/org/springframework/context/annotation/AnnotationConfigUtils.java:233-235 | The same, against the definition's own metadata. |
| AnnotationConfig.ScopedProxyDecision | spring-context/src/main/java/org/springframework/context/annotation/AnnotationConfigUtils.java:267-276 | The definition is kept exactly for mode NO. A proxy is class-based exactly for TARGET_CLASS. |
| AnnotationConfig.AddIfNotNull | spring-context/src/main/java/org/springframework/context/annotation/AnnotationConfigUtils.java:315-320 | Null is skipped and a duplicate collapses. The result holds the old elements plus the new one. The old order is kept as a prefix, and distinctness is preserved. |
| AnnotationConfig.AddAllIfNotNull | spring-context/src/main/java/org/springframework/context/annotation/AnnotationConfigUtils.java:306-308 | Adding each entry in turn keeps the old elements as a prefix and preserves distinctness. The result holds exactly the old elements and the non-null entries. |
| AnnotationConfig.RepeatableAttributes | spring-context/src/main/java/org/springframework/context/annotation/AnnotationConfigUtils.java:298-312 | Adding the direct attributes and then the contained ones gives each present attributes exactly once, with the direct ones first. |
| AnnotationConfig.ContainedAttributes | spring-context/src/main/java/org/springframework/context/annotation/AnnotationConfigUtils.java:303-309 | The contained entries are the container's `value` array. There are none when the container is absent or its `value` is mistyped. |
| AnnotationConfig.ContainerValueMistyped | spring-context/src/main/java/org/springframework/context/annotation/AnnotationConfigUtils.java:305-306 | A mistyped container `value` implies the container annotation is present. |
| AnnotationConfig.AttributesForRepeatable | spring-context/src/main/java/org/springframework/context/annotation/AnnotationConfigUtils.java:295-313 | A container `value` that is not an annotation array is the error, and only then. Otherwise the result is distinct. It holds exactly the direct annotation's attributes and the non-null contained ones, with the direct one first, in order of first appearance. |
| ConfigurationMethods.ProblemReporter.Error | spring-context/src/main/java/org/springframework/context/annotation/BeanMethod.java:52 | An error report is appended to what the reporter already holds. |
| ConfigurationMethods.NonOverridableMethodError | spring-context/src/main/java/org/springframework/context/annotation/BeanMethod.java:73-78 | The message is `@Bean method '`, the method name, and `' must not be private or final; ...`. The problem is located at the method within the configuration class's resource. |
| ConfigurationMethods.ValidationProblems | spring-context/src/main/java/org/springframework/context/annotation/BeanMethod.java:43-55 | At most one problem. There is exactly one for a non-static, non-overridable method of a class annotated with @Configuration. A static method has none. Any problem is an error (not a warning) built by NonOverridableMethodError. |
| Metadata.IsAnnotated | spring-context/src/main/java/org/springframework/context/annotation/BeanMethod.java:49 | A directly present annotation is annotated. Nothing is annotated without annotation types. Annotated means present directly or as a meta-annotation of a present type. |
| ConfigurationMethods.Validate | spring-context/src/main/java/org/springframework/context/annotation/BeanMethod.java:43-55 | The reporter's reports are its old ones followed by exactly ValidationProblems. |
| ConfigurationMethods.BeanMethod.ResourceLocation | spring-context/src/main/java/org/springframework/context/annotation/BeanMethod.java:77 | The problem location is the configuration class's resource, with the method metadata as the source element. |
| ConfigurationMethods.Equals | spring-context/src/main/java/org/springframework/context/annotation/BeanMethod.java:57-61 | null and other classes are unequal, and a bean method equals itself. Equal bean methods share declaring class, method name, parameter types and return type. Equal metadata suffices, whatever the configuration class. |
| ConfigurationMethods.StringHash | spring-context/src/main/java/org/springframework/context/annotation/BeanMethod.java:63-66 | Defines `String.hashCode`: the 31-polynomial over the characters, wrapping at 32 bits. It has no contract of its own; `HashCodeOfSignature` and `EqualsIsConsistent` state what the hash promises. |
| ConfigurationMethods.MethodMetadataHash | spring-context/src/main/java/org/springframework/context/annotation/BeanMethod.java:63-66 | Defines `Method.hashCode`: the declaring class's hash XOR the method name's hash. It has no contract of its own; see `HashCodeOfSignature`. |
| ConfigurationMethods.HashCode | spring-context/src/main/java/org/springframework/context/annotation/BeanMethod.java:63-66 | Defines the bean method's hash as that of its metadata. It has no contract of its own; see `HashCodeOfSignature` and `EqualsIsConsistent`. |
| ConfigurationMethods.HashCodeOfSignature | spring-context/src/main/java/org/springframework/context/annotation/BeanMethod.java:63-66 | Two bean methods with the same declaring class and method name hash alike, whatever their parameter types, return type or configuration class. |
| ConfigurationMethods.OverloadsAreDistinct | spring-context/src/main/java/org/springframework/context/annotation/BeanMethod.java:57-66 | Two overloaded `@Bean` methods of one class are not equal, in either direction, although their hash codes coincide. |
| ConfigurationMethods.EqualsIsConsistent | spring-context/src/main/java/org/springframework/context/annotation/BeanMethod.java:57-66 | equals is reflexive, symmetric and transitive. It holds exactly when the method metadata are equal, whatever the configuration class. Equal bean methods have equal hash codes. |
| SpringCore.ParseBoolean | spring-core/src/main/java/org/springframework/core/SpringProperties.java:130-132 | True exactly for a non-null four-character value spelling t, r, u, e in either case. |
| SpringCore.SpringProperties.constructor | spring-core/src/main/java/org/springframework/core/SpringProperties.java:56-73 | The local map starts as the properties loaded from the file. |
| SpringCore.SpringProperties.SetProperty | spring-core/src/main/java/org/springframework/core/SpringProperties.java:86-93 | A non-null value is stored locally and then read back, overriding the system property. Null removes the local entry, so the system property shows through. Every other key reads as before. |
| SpringCore.SpringProperties.GetProperty | spring-core/src/main/java/org/springframework/core/SpringProperties.java:102-113 | The result is the local entry if there is one; otherwise the system property, or null when there is none or its lookup throws. |
| SpringCore.SpringProperties.Property | spring-core/src/main/java/org/springframework/core/SpringProperties.java:102-113 | The local entry comes first, otherwise a defined system property. There is no value exactly when neither exists. |
| SpringCore.SpringProperties.SetFlag | spring-core/src/main/java/org/springframework/core/SpringProperties.java:120-122 | "true" is stored locally. The flag then reads true, and every other key reads as before. |
| SpringCore.SpringProperties.GetFlag | spring-core/src/main/java/org/springframework/core/SpringProperties.java:130-132 | The flag is the property parsed as a boolean. It is true only for a present value, and always for "true". |
| SpringCore.SpringProperties.Flag | spring-core/src/main/java/org/springframework/core/SpringProperties.java:130-132 | A true flag has a four-character value, and a value of `"true"` makes the flag true. |
| JavaText.EqualsIgnoreCase | spring-core/src/main/java/org/springframework/core/SpringProperties.java:131 | Strings equal ignoring case have the same length, and equal strings are equal ignoring case. |
| JavaText.EqualsIgnoreCaseIsEquivalence | spring-core/src/main/java/org/springframework/core/SpringProperties.java:131 | equalsIgnoreCase is reflexive, symmetric and transitive. |
| JavaText.CharEqualsIgnoreCaseIsUpperCaseEquality | spring-core/src/main/java/org/springframework/core/SpringProperties.java:131 | Two characters are equal ignoring case exactly when their upper-case forms are equal. |
| JavaText.IsWhitespace | spring-context/src/main/java/org/springframework/context/annotation/AnnotationBeanNameGenerator.java:83 | `Character.isWhitespace` on ASCII: space, tab, line feed and carriage return are white space, and white space is neither upper nor lower case. |
| JavaText.HasText | spring-context/src/main/java/org/springframework/context/annotation/AnnotationBeanNameGenerator.java:83 | A string with text has length. A string of white space only has no text. A string whose first character is not white space has text. |
| JavaText.HasLength | spring-context/src/main/java/org/springframework/context/annotation/AnnotationBeanNameGenerator.java:113 | `StringUtils.hasLength` holds exactly for a non-empty string. |
| Metadata.GetBoolean | spring-context/src/main/java/org/springframework/context/annotation/AnnotationConfigUtils.java:240 | The read succeeds exactly when the attribute is present and a Boolean, and returns that value. |
| Metadata.GetStringArray | spring-context/src/main/java/org/springframework/context/annotation/AnnotationConfigUtils.java:254 | The read succeeds exactly when the attribute is present and a String array, and returns it. |
| Metadata.GetNumber | spring-context/src/main/java/org/springframework/context/annotation/AnnotationConfigUtils.java:259 | The read succeeds exactly when the attribute is present and a Number, and returns it. |
| Metadata.GetString | spring-context/src/main/java/org/springframework/context/annotation/AnnotationConfigUtils.java:263 | The read succeeds exactly when the attribute is present and a String, and returns it. |
| JavaText.ToLowerCase | spring-context/src/main/java/org/springframework/context/annotation/AnnotationBeanNameGenerator.java:171 | An upper-case letter becomes its lower-case letter. Any other character is unchanged. |
| JavaText.ToUpperCase | spring-core/src/main/java/org/springframework/core/SpringProperties.java:131 | A lower-case letter becomes its upper-case letter. Any other character is unchanged. |
| Beans.Registry.RegisterBeanDefinition | spring-context/src/main/java/org/springframework/context/annotation/AnnotationConfigUtils.java:216 | The definition is stored under the name, and the rest of the registry is unchanged. |
| Beans.BeanDefinition.constructor | spring-context/src/main/java/org/springframework/context/annotation/AnnotationConfigUtils.java:164 | A new definition of the given class has the application role, no source, and no common settings made. |

## Left out

- The `SpringProperties` static initializer is not modelled: the class-loader resource lookup, opening the stream, `Properties.load` and the `System.err` diagnostics. This is file I/O. The constructor takes the loaded map as a parameter.
- `System.getProperty` becomes a read-only map given to the constructor. A key without an entry stands for null, and `Denied` stands for a lookup that throws. The stderr message in the catch block is left out.
- Classpath probing is not modelled: the static `jsr250Present`/`jpaPresent` fields and `ClassUtils.forName`. These are reflection and class loading. The two flags are parameters. The persistence processor's class is named directly, so the `ClassNotFoundException` branch is not modelled; it cannot be reached when the JPA flag holds.
- `applyScopedProxyMode` is modelled only as its decision. `ScopedProxyCreator.createScopedProxy` builds a proxy definition through code that is not part of this model.
- The `ConcurrentHashMap` of the name generator is a plain map updated in sequence: concurrency is not modelled.
- Annotation metadata is a table given as data: `AnnotationMetadata`, `MethodMetadata`, and the merged-annotation lookups behind `getAnnotationAttributes` and `getMetaAnnotationTypes`. `AnnotationAttributes.fromMap` is the identity on that table. `AnnotationAttributes.getStringArray` adapts a single String value into a one-element array; the model's `GetStringArray` does not and returns the type error on a String value.
- `abd.getMetadata() != metadata` is a reference comparison in Java. The model compares the metadata as values. For equal contents the fallback lookup repeats a lookup that already found nothing, so the outcome is the same.
- `ProcessCommonDefinitionAnnotations` requires the definition to have annotation metadata. This mirrors the source's `AnnotatedBeanDefinition` parameter type.
- Case mapping and white space are modelled for ASCII characters only. Other characters are treated as neither upper nor lower case nor white space. This covers `Character.isUpperCase`, `toLowerCase`, `isWhitespace` and `equalsIgnoreCase`.
- ClassUtils.getShortName is not part of this model; its documented behaviour is used. That behaviour takes the part after the last '.' and turns '$' into '.'. The source's cut at a CGLIB "$$" marker and its assertion on an empty name are not modelled.
- `Number.intValue()` on a `@Role` value is not modelled: role numbers are unbounded integers, so wrap-around on narrowing does not occur.
- The registry's own checks in `registerBeanDefinition` are not modelled: bean-definition validation, override policy and aliases. Registration stores the definition under its name.
- `ConfigurationMethods.HashCode`: `Method.hashCode` is modelled as the declaring class name's `String.hashCode` XOR the method name's `String.hashCode`, in 32-bit arithmetic. Dafny's `char` is a Unicode scalar value, while `String.hashCode` folds UTF-16 code units. So a name containing a character outside the Basic Multilingual Plane, which Java stores as a surrogate pair, hashes differently in the model. `MethodMetadata.equals` is value equality of the method's signature: declaring class, name, parameter types and return type, plus the two modifiers validation reads. ConfigurationMethod.java is not part of this model. Its `getResourceLocation` is modelled from its use in BeanMethod.java.
- `ConfigurationMethods.Equals` models `BeanMethod.equals` with `null` (or an object of another class) as `None`. The `this == obj` shortcut is subsumed by value equality.
- The `toString` methods are not modelled: they only format text.
- `ProblemReporter.fatal` and `ProblemReporter.warning` are not modelled: `validate` only reports errors, so the model's reporter has only `Error`.
- `AnnotationConfig.AddIfNotNull`, `AnnotationConfig.AddAllIfNotNull`, `AnnotationConfig.RepeatableAttributes` and `AnnotationConfig.AttributesForRepeatable` treat attribute maps as values. In Java the `LinkedHashSet` compares `AnnotationAttributes` with `AbstractMap.equals`, and array-valued attributes compare by identity. Each occurrence of an annotation carries its own arrays. So an annotation written both directly and inside its container, with equal array-valued attributes, gives two entries in Java and one in the model. Maps without array values agree.
- `ProblemReporter` implementations that throw are not modelled, such as a fail-fast reporter. The model's reporter records every report.
- `ApplicationStartup` is an interface with no logic. The demo application files only call container APIs.
- `CONFIGURATION_BEAN_NAME_GENERATOR` and the deprecated `REQUIRED_ANNOTATION_PROCESSOR_BEAN_NAME` are not modelled: no modelled operation uses these constants.
- `AnnotationConfig.RegisterAnnotationConfigProcessors` returns the holders as a sequence. The source returns a `LinkedHashSet`. The holders' names are distinct, so the two agree.
- `Beans.BeanDefinition.constructor` covers the `RootBeanDefinition` class-based constructor only for the fields the core reads. Other definition state is not modelled.
