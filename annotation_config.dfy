/**
 * AnnotationConfigUtils: registration of the infrastructure post-processors a container needs
 * for annotation-based configuration, the copying of common definition annotations onto a bean
 * definition, the merge of a repeatable annotation with its container, and the scoped-proxy decision.
 */
module AnnotationConfig {
  import opened Wrappers
  import opened Metadata
  import opened Beans

  const ConfigurationAnnotationProcessorBeanName: string :=
    "org.springframework.context.annotation.internalConfigurationAnnotationProcessor"
  const AutowiredAnnotationProcessorBeanName: string :=
    "org.springframework.context.annotation.internalAutowiredAnnotationProcessor"
  const CommonAnnotationProcessorBeanName: string :=
    "org.springframework.context.annotation.internalCommonAnnotationProcessor"
  const PersistenceAnnotationProcessorBeanName: string :=
    "org.springframework.context.annotation.internalPersistenceAnnotationProcessor"
  const EventListenerProcessorBeanName: string :=
    "org.springframework.context.event.internalEventListenerProcessor"
  const EventListenerFactoryBeanName: string :=
    "org.springframework.context.event.internalEventListenerFactory"

  const ConfigurationClassPostProcessorClassName: string :=
    "org.springframework.context.annotation.ConfigurationClassPostProcessor"
  const AutowiredAnnotationBeanPostProcessorClassName: string :=
    "org.springframework.beans.factory.annotation.AutowiredAnnotationBeanPostProcessor"
  const CommonAnnotationBeanPostProcessorClassName: string :=
    "org.springframework.context.annotation.CommonAnnotationBeanPostProcessor"
  const PersistenceAnnotationProcessorClassName: string :=
    "org.springframework.orm.jpa.support.PersistenceAnnotationBeanPostProcessor"
  const EventListenerMethodProcessorClassName: string :=
    "org.springframework.context.event.EventListenerMethodProcessor"
  const DefaultEventListenerFactoryClassName: string :=
    "org.springframework.context.event.DefaultEventListenerFactory"

  const LazyAnnotation: string := "org.springframework.context.annotation.Lazy"
  const PrimaryAnnotation: string := "org.springframework.context.annotation.Primary"
  const DependsOnAnnotation: string := "org.springframework.context.annotation.DependsOn"
  const RoleAnnotation: string := "org.springframework.context.annotation.Role"
  const DescriptionAnnotation: string := "org.springframework.context.annotation.Description"

  /** AnnotationAwareOrderComparator.INSTANCE and a new ContextAnnotationAutowireCandidateResolver. */
  const AnnotationAwareOrderComparatorInstance: DependencyComparator :=
    Comparator(true, "AnnotationAwareOrderComparator.INSTANCE")
  const NewContextAnnotationAutowireCandidateResolver: AutowireCandidateResolver :=
    CandidateResolver(true, "ContextAnnotationAutowireCandidateResolver")

  // ---------------------------------------------------------------------------------------------
  // Infrastructure bootstrap
  // ---------------------------------------------------------------------------------------------

  /** An infrastructure post-processor: the bean name it is registered under and the class its definition names. */
  datatype Processor = Processor(beanName: string, className: string)

  const ConfigurationClassPostProcessor: Processor :=
    Processor(ConfigurationAnnotationProcessorBeanName, ConfigurationClassPostProcessorClassName)
  const AutowiredAnnotationBeanPostProcessor: Processor :=
    Processor(AutowiredAnnotationProcessorBeanName, AutowiredAnnotationBeanPostProcessorClassName)
  const CommonAnnotationBeanPostProcessor: Processor :=
    Processor(CommonAnnotationProcessorBeanName, CommonAnnotationBeanPostProcessorClassName)
  const PersistenceAnnotationBeanPostProcessor: Processor :=
    Processor(PersistenceAnnotationProcessorBeanName, PersistenceAnnotationProcessorClassName)
  const EventListenerMethodProcessor: Processor :=
    Processor(EventListenerProcessorBeanName, EventListenerMethodProcessorClassName)
  const DefaultEventListenerFactory: Processor :=
    Processor(EventListenerFactoryBeanName, DefaultEventListenerFactoryClassName)

  /** No element occurs twice, as in a set that keeps insertion order. */
  predicate Distinct<T(==)>(xs: seq<T>) {
    forall i, j :: 0 <= i < j < |xs| ==> xs[i] != xs[j]
  }

  /** No two processors of `ps` share a bean name. */
  predicate DistinctNames(ps: seq<Processor>) {
    forall i, j :: 0 <= i < j < |ps| ==> ps[i].beanName != ps[j].beanName
  }

  /** The bean name of `p` is that of none of `ps`. */
  predicate NameIsNew(ps: seq<Processor>, p: Processor) {
    forall q :: q in ps ==> q.beanName != p.beanName
  }

  /** The six infrastructure processors, in the order registerAnnotationConfigProcessors considers them. */
  const AllProcessors: seq<Processor> :=
    [ConfigurationClassPostProcessor, AutowiredAnnotationBeanPostProcessor,
     CommonAnnotationBeanPostProcessor, PersistenceAnnotationBeanPostProcessor,
     EventListenerMethodProcessor, DefaultEventListenerFactory]

  /** The six infrastructure bean names are pairwise different. */
  lemma ProcessorNamesDistinct()
    ensures |AllProcessors| == 6 && DistinctNames(AllProcessors)
  {
    assert |ConfigurationAnnotationProcessorBeanName| == 79;
    assert |AutowiredAnnotationProcessorBeanName| == 75;
    assert |CommonAnnotationProcessorBeanName| == 72;
    assert |PersistenceAnnotationProcessorBeanName| == 77;
    assert |EventListenerProcessorBeanName| == 64;
    assert |EventListenerFactoryBeanName| == 62;
  }

  /**
   * Of six processors, those considered: the first two, the third only when JSR-250 is present,
   * the fourth only when JPA is present, and the last two.
   */
  function ConsideredProcessors(all: seq<Processor>, jsr250Present: bool, jpaPresent: bool): seq<Processor>
    requires |all| == 6
  {
    [all[0], all[1]] +
    (if jsr250Present then [all[2]] else []) +
    (if jpaPresent then [all[3]] else []) +
    [all[4], all[5]]
  }

  /** The infrastructure processors considered for the given optional libraries, in registration order. */
  function InfrastructureProcessors(jsr250Present: bool, jpaPresent: bool): seq<Processor> {
    ProcessorNamesDistinct();
    ConsideredProcessors(AllProcessors, jsr250Present, jpaPresent)
  }

  /** Each of six distinctly named processors is considered at most once; the optional ones exactly when enabled. */
  lemma ConsideredProcessorsMembers(all: seq<Processor>, jsr250Present: bool, jpaPresent: bool)
    requires |all| == 6 && DistinctNames(all)
    ensures var r := ConsideredProcessors(all, jsr250Present, jpaPresent);
      DistinctNames(r) &&
      all[0] in r && all[1] in r && all[4] in r && all[5] in r &&
      (all[2] in r <==> jsr250Present) &&
      (all[3] in r <==> jpaPresent)
  {
    ConsideredNamesAreNew(all, jsr250Present, jpaPresent);
    var opt2 := if jsr250Present then [all[2]] else [];
    var opt3 := if jpaPresent then [all[3]] else [];
    var b1 := [all[0], all[1]];
    AppendNewName([all[0]], all[1]);
    assert [all[0]] + [all[1]] == b1;
    if jsr250Present { AppendNewName(b1, all[2]); }
    var b2 := b1 + opt2;
    if jpaPresent { AppendNewName(b2, all[3]); }
    var b3 := b2 + opt3;
    AppendNewName(b3, all[4]);
    AppendNewName(b3 + [all[4]], all[5]);
    assert b3 + [all[4]] + [all[5]] == ConsideredProcessors(all, jsr250Present, jpaPresent);
  }

  /** Appending a processor with a fresh name keeps the names distinct. */
  lemma AppendNewName(ps: seq<Processor>, p: Processor)
    requires DistinctNames(ps) && NameIsNew(ps, p)
    ensures DistinctNames(ps + [p])
  {
    var r := ps + [p];
    forall i, j | 0 <= i < j < |r| ensures r[i].beanName != r[j].beanName {
      if j == |ps| {
        assert r[i] in ps;
      } else {
        assert r[i] == ps[i] && r[j] == ps[j];
      }
    }
  }

  /** The name of each processor differs from those of the processors considered before it. */
  lemma ConsideredNamesAreNew(all: seq<Processor>, jsr250Present: bool, jpaPresent: bool)
    requires |all| == 6 && DistinctNames(all)
    ensures NameIsNew([], all[0]) && NameIsNew([], all[1]) && all[0].beanName != all[1].beanName
    ensures NameIsNew([all[0], all[1]], all[2]) && NameIsNew([all[0], all[1]], all[3]) && all[2].beanName != all[3].beanName
    ensures var before := [all[0], all[1]] + (if jsr250Present then [all[2]] else []) + (if jpaPresent then [all[3]] else []);
      NameIsNew(before, all[4]) && NameIsNew(before, all[5]) && all[4].beanName != all[5].beanName
  {
    var before := [all[0], all[1]] + (if jsr250Present then [all[2]] else []) + (if jpaPresent then [all[3]] else []);
    assert forall q :: q in before ==> q == all[0] || q == all[1] || q == all[2] || q == all[3];
  }

  /**
   * The three pairs of blocks, each appending what it considers, together consider ConsideredProcessors.
   * This only closes the ghost `done` chain of RegisterConsideredProcessors; it states nothing new about the source.
   */
  lemma ConsideredInSteps(all: seq<Processor>, jsr250Present: bool, jpaPresent: bool,
                          done1: seq<Processor>, done2: seq<Processor>, done3: seq<Processor>)
    requires |all| == 6
    ensures done1 == [] + (if true then [all[0]] else []) + (if true then [all[1]] else []) ==> done1 == [all[0], all[1]]
    ensures done1 == [all[0], all[1]] &&
            done2 == done1 + (if jsr250Present then [all[2]] else []) + (if jpaPresent then [all[3]] else []) ==>
            done2 == [all[0], all[1]] + (if jsr250Present then [all[2]] else []) + (if jpaPresent then [all[3]] else [])
    ensures done2 == [all[0], all[1]] + (if jsr250Present then [all[2]] else []) + (if jpaPresent then [all[3]] else []) &&
            done3 == done2 + (if true then [all[4]] else []) + (if true then [all[5]] else []) ==>
            done3 == ConsideredProcessors(all, jsr250Present, jpaPresent)
  {
  }

  /** Each name is considered at most once; the four unconditional processors always, the optional ones exactly when present. */
  lemma InfrastructureProcessorsMembers(jsr250Present: bool, jpaPresent: bool)
    ensures var r := InfrastructureProcessors(jsr250Present, jpaPresent);
      DistinctNames(r) &&
      ConfigurationClassPostProcessor in r && AutowiredAnnotationBeanPostProcessor in r &&
      EventListenerMethodProcessor in r && DefaultEventListenerFactory in r &&
      (CommonAnnotationBeanPostProcessor in r <==> jsr250Present) &&
      (PersistenceAnnotationBeanPostProcessor in r <==> jpaPresent)
  {
    ProcessorNamesDistinct();
    ConsideredProcessorsMembers(AllProcessors, jsr250Present, jpaPresent);
  }

  /** The processors of `ps` whose bean name is not among `existing`, in order. */
  function Unregistered(ps: seq<Processor>, existing: set<string>): seq<Processor>
    decreases |ps|
  {
    if ps == [] then []
    else
      var before := Unregistered(ps[..|ps| - 1], existing);
      var last := ps[|ps| - 1];
      if last.beanName in existing then before else before + [last]
  }

  /** Unregistered keeps exactly the processors whose name is free, so none at all once every name is taken. */
  lemma {:induction false} UnregisteredMembers(ps: seq<Processor>, existing: set<string>)
    ensures forall p :: p in Unregistered(ps, existing) <==> p in ps && p.beanName !in existing
    ensures (forall p :: p in ps ==> p.beanName in existing) ==> Unregistered(ps, existing) == []
    decreases |ps|
  {
    if ps != [] {
      var init, last := ps[..|ps| - 1], ps[|ps| - 1];
      UnregisteredMembers(init, existing);
      assert ps == init + [last];
      assert forall p :: p in ps <==> p in init || p == last;
    }
  }

  /** Dropping the processors whose name is taken keeps the remaining names distinct. */
  lemma {:induction false} UnregisteredKeepsDistinct(ps: seq<Processor>, existing: set<string>)
    requires DistinctNames(ps)
    ensures DistinctNames(Unregistered(ps, existing))
    decreases |ps|
  {
    if ps != [] {
      var init, last := ps[..|ps| - 1], ps[|ps| - 1];
      assert forall i :: 0 <= i < |init| ==> init[i] == ps[i];
      UnregisteredKeepsDistinct(init, existing);
      if last.beanName !in existing {
        var u := Unregistered(init, existing);
        UnregisteredMembers(init, existing);
        forall q | q in u ensures q.beanName != last.beanName {
          var m :| 0 <= m < |init| && init[m] == q;
          assert ps[m] == q;
        }
        AppendNewName(u, last);
      }
    }
  }

  /** A bean definition as registerPostProcessor leaves it: of the processor's class, from `source`, infrastructure role. */
  ghost predicate IsInfrastructureDefinition(definition: BeanDefinition, className: string, source: Option<string>)
    reads definition
  {
    definition.beanClassName == Some(className) && definition.source == source &&
    definition.role == RoleInfrastructure && definition.metadata == None
  }

  predicate DistinctHolderNames(hs: seq<BeanDefinitionHolder>) {
    forall i, j :: 0 <= i < j < |hs| ==> hs[i].beanName != hs[j].beanName
  }

  /** The registry entries a sequence of holders stands for: each holder's name bound to its definition. */
  function HolderEntries(hs: seq<BeanDefinitionHolder>): map<string, BeanDefinition>
    decreases |hs|
  {
    if hs == [] then map[]
    else HolderEntries(hs[..|hs| - 1])[hs[|hs| - 1].beanName := hs[|hs| - 1].definition]
  }

  /** The keys of HolderEntries are the holders' names; with distinct names each maps to its own definition. */
  lemma {:induction false} HolderEntriesMembers(hs: seq<BeanDefinitionHolder>)
    ensures forall i :: 0 <= i < |hs| ==> hs[i].beanName in HolderEntries(hs)
    ensures forall k :: k in HolderEntries(hs) ==> exists i :: 0 <= i < |hs| && hs[i].beanName == k
    ensures DistinctHolderNames(hs) ==> forall i :: 0 <= i < |hs| ==> HolderEntries(hs)[hs[i].beanName] == hs[i].definition
    decreases |hs|
  {
    if hs != [] {
      var init := hs[..|hs| - 1];
      HolderEntriesMembers(init);
      assert forall i :: 0 <= i < |hs| - 1 ==> init[i] == hs[i];
    }
  }

  /**
   * The state after considering the processors `done`: the holders returned so far are exactly
   * those of `done` that were missing from `initial`, each defining its processor, and the
   * entries `defs` are `initial` plus those holders.
   */
  ghost predicate Bootstrapped(defs: map<string, BeanDefinition>, initial: map<string, BeanDefinition>, done: seq<Processor>,
                               beanDefs: seq<BeanDefinitionHolder>, source: Option<string>)
    reads set h | h in beanDefs :: h.definition
  {
    HoldersDefine(beanDefs, Unregistered(done, initial.Keys), source) &&
    defs == initial + HolderEntries(beanDefs)
  }

  /** The holders correspond one to one, in order, to the processors `ps`: each named after its processor and defining it. */
  ghost predicate HoldersDefine(beanDefs: seq<BeanDefinitionHolder>, ps: seq<Processor>, source: Option<string>)
    reads set h | h in beanDefs :: h.definition
  {
    |beanDefs| == |ps| &&
    forall i :: 0 <= i < |beanDefs| ==>
      beanDefs[i].beanName == ps[i].beanName &&
      IsInfrastructureDefinition(beanDefs[i].definition, ps[i].className, source)
  }

  /** A holder defining a processor extends the correspondence by one. */
  lemma HoldersDefineAppend(beanDefs: seq<BeanDefinitionHolder>, ps: seq<Processor>, source: Option<string>,
                            h: BeanDefinitionHolder, p: Processor)
    requires HoldersDefine(beanDefs, ps, source)
    requires h.beanName == p.beanName && IsInfrastructureDefinition(h.definition, p.className, source)
    ensures HoldersDefine(beanDefs + [h], ps + [p], source)
  {
    var hs, qs := beanDefs + [h], ps + [p];
    forall i | 0 <= i < |hs|
      ensures hs[i].beanName == qs[i].beanName
      ensures IsInfrastructureDefinition(hs[i].definition, qs[i].className, source)
    {
      if i < |beanDefs| {
        assert hs[i] == beanDefs[i] && qs[i] == ps[i];
      }
    }
  }

  /** The holder entries of one more holder: the previous entries with its name bound to its definition. */
  lemma HolderEntriesAppend(initial: map<string, BeanDefinition>, beanDefs: seq<BeanDefinitionHolder>, h: BeanDefinitionHolder)
    ensures initial + HolderEntries(beanDefs + [h]) == (initial + HolderEntries(beanDefs))[h.beanName := h.definition]
  {
    var hs := beanDefs + [h];
    assert hs[..|hs| - 1] == beanDefs;
  }

  /** Every holder so far is named after a processor of `done` that was not in `initial`. */
  lemma HolderNamesArePending(initial: map<string, BeanDefinition>, done: seq<Processor>,
                              beanDefs: seq<BeanDefinitionHolder>, source: Option<string>, k: string)
    requires Bootstrapped(initial + HolderEntries(beanDefs), initial, done, beanDefs, source)
    requires k in HolderEntries(beanDefs)
    ensures k !in initial && exists q :: q in done && q.beanName == k
  {
    HolderEntriesMembers(beanDefs);
    UnregisteredMembers(done, initial.Keys);
    var i :| 0 <= i < |beanDefs| && beanDefs[i].beanName == k;
    var pending := Unregistered(done, initial.Keys);
    assert pending[i] in pending;
  }

  /** A processor whose name is already registered leaves the state as it was. */
  lemma BootstrapSkip(defs: map<string, BeanDefinition>, initial: map<string, BeanDefinition>, done: seq<Processor>,
                      beanDefs: seq<BeanDefinitionHolder>, source: Option<string>, p: Processor)
    requires Bootstrapped(defs, initial, done, beanDefs, source)
    requires NameIsNew(done, p)
    requires p.beanName in defs
    ensures Bootstrapped(defs, initial, done + [p], beanDefs, source)
  {
    assert (done + [p])[..|done + [p]| - 1] == done;
    if p.beanName !in initial {
      HolderNamesArePending(initial, done, beanDefs, source, p.beanName);
      assert false;
    }
  }

  /** A processor whose name is free extends the holders by its own. */
  lemma BootstrapAdd(defs: map<string, BeanDefinition>, initial: map<string, BeanDefinition>, done: seq<Processor>,
                     beanDefs: seq<BeanDefinitionHolder>, source: Option<string>, p: Processor, h: BeanDefinitionHolder)
    requires Bootstrapped(defs, initial, done, beanDefs, source)
    requires p.beanName !in defs
    requires h.beanName == p.beanName && IsInfrastructureDefinition(h.definition, p.className, source)
    ensures Bootstrapped(defs[p.beanName := h.definition], initial, done + [p], beanDefs + [h], source)
  {
    assert (done + [p])[..|done + [p]| - 1] == done;
    assert p.beanName !in initial;
    assert Unregistered(done + [p], initial.Keys) == Unregistered(done, initial.Keys) + [p];
    HoldersDefineAppend(beanDefs, Unregistered(done, initial.Keys), source, h, p);
    HolderEntriesAppend(initial, beanDefs, h);
  }

  /** After all of `done` is considered, each of their names is registered. */
  lemma BootstrappedCovers(defs: map<string, BeanDefinition>, initial: map<string, BeanDefinition>, done: seq<Processor>,
                           beanDefs: seq<BeanDefinitionHolder>, source: Option<string>)
    requires Bootstrapped(defs, initial, done, beanDefs, source)
    ensures forall p :: p in done ==> p.beanName in defs
  {
    UnregisteredMembers(done, initial.Keys);
    HoldersDefineNames(beanDefs, Unregistered(done, initial.Keys), source);
  }

  /** Each processor a sequence of holders defines has its name among the holder entries. */
  lemma HoldersDefineNames(beanDefs: seq<BeanDefinitionHolder>, ps: seq<Processor>, source: Option<string>)
    requires HoldersDefine(beanDefs, ps, source)
    ensures forall q :: q in ps ==> q.beanName in HolderEntries(beanDefs)
  {
    HolderEntriesMembers(beanDefs);
    forall q | q in ps
      ensures q.beanName in HolderEntries(beanDefs)
    {
      var i :| 0 <= i < |ps| && ps[i] == q;
      assert beanDefs[i].beanName == q.beanName;
    }
  }

  /** The holders never reuse a name of `initial`, so every pre-existing entry survives unchanged. */
  lemma BootstrappedKeepsInitial(defs: map<string, BeanDefinition>, initial: map<string, BeanDefinition>, done: seq<Processor>,
                                 beanDefs: seq<BeanDefinitionHolder>, source: Option<string>)
    requires Bootstrapped(defs, initial, done, beanDefs, source)
    ensures forall n :: n in initial ==> n in defs && defs[n] == initial[n]
  {
    forall n | n in initial
      ensures n in defs && defs[n] == initial[n]
    {
      if n in HolderEntries(beanDefs) {
        HolderNamesArePending(initial, done, beanDefs, source, n);
      }
    }
  }

  /** registerPostProcessor: tag the definition as infrastructure, register it under `beanName`, and pair the two. */
  method RegisterPostProcessor(registry: Registry, definition: BeanDefinition, beanName: string)
    returns (holder: BeanDefinitionHolder)
    modifies registry`beanDefinitions, definition`role
    ensures definition.role == RoleInfrastructure
    ensures registry.beanDefinitions == old(registry.beanDefinitions)[beanName := definition]
    ensures holder == BeanDefinitionHolder(definition, beanName)
  {
    definition.role := RoleInfrastructure;
    registry.RegisterBeanDefinition(beanName, definition);
    holder := BeanDefinitionHolder(definition, beanName);
  }

  /** The body of one block: a fresh definition of the processor's class from `source`, registered under its name. */
  method DefineAndRegister(registry: Registry, p: Processor, source: Option<string>) returns (holder: BeanDefinitionHolder)
    modifies registry`beanDefinitions
    ensures fresh(holder.definition)
    ensures holder.beanName == p.beanName && IsInfrastructureDefinition(holder.definition, p.className, source)
    ensures registry.beanDefinitions == old(registry.beanDefinitions)[p.beanName := holder.definition]
  {
    var def := new BeanDefinition(Some(p.className), None);
    def.source := source;
    holder := RegisterPostProcessor(registry, def, p.beanName);
  }

  /**
   * One block of registerAnnotationConfigProcessors: when the processor is `enabled` (its optional
   * library is present) and its name is free, define it from `source` and register it.
   */
  method RegisterUnlessPresent(registry: Registry, p: Processor, enabled: bool, source: Option<string>,
                               beanDefs: seq<BeanDefinitionHolder>,
                               ghost initial: map<string, BeanDefinition>, ghost done: seq<Processor>)
    returns (beanDefs': seq<BeanDefinitionHolder>, ghost done': seq<Processor>)
    requires Bootstrapped(registry.beanDefinitions, initial, done, beanDefs, source)
    requires NameIsNew(done, p)
    modifies registry`beanDefinitions
    ensures done' == done + (if enabled then [p] else [])
    ensures Bootstrapped(registry.beanDefinitions, initial, done', beanDefs', source)
    ensures forall h :: h in beanDefs' ==> h in beanDefs || fresh(h.definition)
    ensures !enabled || p.beanName in old(registry.beanDefinitions) ==>
      beanDefs' == beanDefs && registry.beanDefinitions == old(registry.beanDefinitions)
    ensures enabled && p.beanName !in old(registry.beanDefinitions) ==>
      |beanDefs'| == |beanDefs| + 1 && beanDefs'[..|beanDefs|] == beanDefs &&
      beanDefs'[|beanDefs|].beanName == p.beanName && fresh(beanDefs'[|beanDefs|].definition) &&
      IsInfrastructureDefinition(beanDefs'[|beanDefs|].definition, p.className, source) &&
      registry.beanDefinitions == old(registry.beanDefinitions)[p.beanName := beanDefs'[|beanDefs|].definition]
  {
    done' := done + (if enabled then [p] else []);
    if enabled && !registry.ContainsBeanDefinition(p.beanName) {
      ghost var before := registry.beanDefinitions;
      var holder := DefineAndRegister(registry, p, source);
      BootstrapAdd(before, initial, done, beanDefs, source, p, holder);
      beanDefs' := beanDefs + [holder];
    } else {
      if enabled {
        BootstrapSkip(registry.beanDefinitions, initial, done, beanDefs, source, p);
      } else {
        assert done' == done;
      }
      beanDefs' := beanDefs;
    }
  }

  /** Two consecutive blocks of registerAnnotationConfigProcessors, for two processors with different names. */
  method RegisterBothUnlessPresent(registry: Registry, p: Processor, pEnabled: bool, q: Processor, qEnabled: bool,
                                   source: Option<string>, beanDefs: seq<BeanDefinitionHolder>,
                                   ghost initial: map<string, BeanDefinition>, ghost done: seq<Processor>)
    returns (beanDefs': seq<BeanDefinitionHolder>, ghost done': seq<Processor>)
    requires Bootstrapped(registry.beanDefinitions, initial, done, beanDefs, source)
    requires NameIsNew(done, p) && NameIsNew(done, q) && p.beanName != q.beanName
    modifies registry`beanDefinitions
    ensures done' == done + (if pEnabled then [p] else []) + (if qEnabled then [q] else [])
    ensures Bootstrapped(registry.beanDefinitions, initial, done', beanDefs', source)
    ensures forall h :: h in beanDefs' ==> h in beanDefs || fresh(h.definition)
  {
    var bs; ghost var mid;
    bs, mid := RegisterUnlessPresent(registry, p, pEnabled, source, beanDefs, initial, done);
    beanDefs', done' := RegisterUnlessPresent(registry, q, qEnabled, source, bs, initial, mid);
  }

  /** unwrapDefaultListableBeanFactory(registry) != null: the registry is, or wraps, a DefaultListableBeanFactory. */
  predicate HasDefaultListableBeanFactory(kind: RegistryKind)
    ensures kind == OtherRegistry ==> !HasDefaultListableBeanFactory(kind)
    ensures kind != OtherRegistry ==> HasDefaultListableBeanFactory(kind)
  {
    kind == DefaultListableBeanFactory || kind == GenericApplicationContext
  }

  predicate IsAnnotationAwareOrderComparator(c: DependencyComparator) {
    c.Comparator? && c.isAnnotationAwareOrderComparator
  }

  /**
   * The first part of registerAnnotationConfigProcessors: where the registry has a
   * DefaultListableBeanFactory, install the annotation-aware order comparator and the
   * annotation-aware autowire candidate resolver unless ones of those kinds are already set.
   */
  method InstallAnnotationStrategies(registry: Registry)
    modifies registry`dependencyComparator, registry`autowireCandidateResolver
    ensures registry.dependencyComparator ==
      if HasDefaultListableBeanFactory(registry.kind) && !IsAnnotationAwareOrderComparator(old(registry.dependencyComparator))
      then AnnotationAwareOrderComparatorInstance else old(registry.dependencyComparator)
    ensures registry.autowireCandidateResolver ==
      if HasDefaultListableBeanFactory(registry.kind) &&
         !old(registry.autowireCandidateResolver).isContextAnnotationAutowireCandidateResolver
      then NewContextAnnotationAutowireCandidateResolver else old(registry.autowireCandidateResolver)
  {
    if HasDefaultListableBeanFactory(registry.kind) {
      if !IsAnnotationAwareOrderComparator(registry.dependencyComparator) {
        registry.dependencyComparator := AnnotationAwareOrderComparatorInstance;
      }
      if !registry.autowireCandidateResolver.isContextAnnotationAutowireCandidateResolver {
        registry.autowireCandidateResolver := NewContextAnnotationAutowireCandidateResolver;
      }
    }
  }

  /**
   * The guarded registration blocks for six distinctly named processors, in their fixed order:
   * the first two, the third when JSR-250 is present, the fourth when JPA is present, the last two.
   */
  method RegisterConsideredProcessors(registry: Registry, all: seq<Processor>, source: Option<string>,
                                      jsr250Present: bool, jpaPresent: bool)
    returns (beanDefs: seq<BeanDefinitionHolder>)
    requires |all| == 6 && DistinctNames(all)
    modifies registry`beanDefinitions
    ensures Bootstrapped(registry.beanDefinitions, old(registry.beanDefinitions),
                         ConsideredProcessors(all, jsr250Present, jpaPresent), beanDefs, source)
    ensures forall h :: h in beanDefs ==> fresh(h.definition)
  {
    ghost var initial := registry.beanDefinitions;
    ghost var done: seq<Processor> := [];
    beanDefs := [];
    assert initial + HolderEntries(beanDefs) == initial;
    ConsideredNamesAreNew(all, jsr250Present, jpaPresent);
    ghost var done1, done2, done3;
    beanDefs, done1 := RegisterBothUnlessPresent(registry, all[0], true, all[1], true, source, beanDefs, initial, done);
    ConsideredInSteps(all, jsr250Present, jpaPresent, done1, [], []);
    beanDefs, done2 := RegisterBothUnlessPresent(registry, all[2], jsr250Present, all[3], jpaPresent, source, beanDefs, initial, done1);
    beanDefs, done3 := RegisterBothUnlessPresent(registry, all[4], true, all[5], true, source, beanDefs, initial, done2);
    ConsideredInSteps(all, jsr250Present, jpaPresent, done1, done2, done3);
  }

  /**
   * The second part of registerAnnotationConfigProcessors: the six guarded registration blocks,
   * one per infrastructure processor, in their fixed order.
   */
  method RegisterInfrastructureProcessors(registry: Registry, source: Option<string>, jsr250Present: bool, jpaPresent: bool)
    returns (beanDefs: seq<BeanDefinitionHolder>)
    modifies registry`beanDefinitions
    ensures Bootstrapped(registry.beanDefinitions, old(registry.beanDefinitions),
                         InfrastructureProcessors(jsr250Present, jpaPresent), beanDefs, source)
    ensures forall h :: h in beanDefs ==> fresh(h.definition)
  {
    ProcessorNamesDistinct();
    beanDefs := RegisterConsideredProcessors(registry, AllProcessors, source, jsr250Present, jpaPresent);
  }

  /**
   * registerAnnotationConfigProcessors: install the two strategies where needed and register
   * every infrastructure processor whose name is not yet taken, returning the holders of
   * exactly those registered by this call, in registration order.
   */
  method RegisterAnnotationConfigProcessors(registry: Registry, source: Option<string>, jsr250Present: bool, jpaPresent: bool)
    returns (beanDefs: seq<BeanDefinitionHolder>)
    modifies registry
    ensures registry.dependencyComparator ==
      if HasDefaultListableBeanFactory(registry.kind) && !IsAnnotationAwareOrderComparator(old(registry.dependencyComparator))
      then AnnotationAwareOrderComparatorInstance else old(registry.dependencyComparator)
    ensures registry.autowireCandidateResolver ==
      if HasDefaultListableBeanFactory(registry.kind) &&
         !old(registry.autowireCandidateResolver).isContextAnnotationAutowireCandidateResolver
      then NewContextAnnotationAutowireCandidateResolver else old(registry.autowireCandidateResolver)
    ensures var pending := Unregistered(InfrastructureProcessors(jsr250Present, jpaPresent), old(registry.beanDefinitions).Keys);
      |beanDefs| == |pending| &&
      forall i :: 0 <= i < |beanDefs| ==>
        beanDefs[i].beanName == pending[i].beanName &&
        IsInfrastructureDefinition(beanDefs[i].definition, pending[i].className, source)
    ensures forall h :: h in beanDefs ==> fresh(h.definition)
    ensures registry.beanDefinitions == old(registry.beanDefinitions) + HolderEntries(beanDefs)
    ensures forall n :: n in old(registry.beanDefinitions) ==>
      n in registry.beanDefinitions && registry.beanDefinitions[n] == old(registry.beanDefinitions)[n]
    ensures forall p :: p in InfrastructureProcessors(jsr250Present, jpaPresent) ==> p.beanName in registry.beanDefinitions
  {
    InstallAnnotationStrategies(registry);
    beanDefs := RegisterInfrastructureProcessors(registry, source, jsr250Present, jpaPresent);
    BootstrappedCovers(registry.beanDefinitions, old(registry.beanDefinitions),
                       InfrastructureProcessors(jsr250Present, jpaPresent), beanDefs, source);
    BootstrappedKeepsInitial(registry.beanDefinitions, old(registry.beanDefinitions),
                             InfrastructureProcessors(jsr250Present, jpaPresent), beanDefs, source);
  }

  /** Bootstrapping a second time against the same registry registers nothing and returns no holders. */
  method BootstrapTwice(registry: Registry, source: Option<string>, jsr250Present: bool, jpaPresent: bool)
    returns (first: seq<BeanDefinitionHolder>, second: seq<BeanDefinitionHolder>)
    modifies registry
    ensures second == []
  {
    first := RegisterAnnotationConfigProcessors(registry, source, jsr250Present, jpaPresent);
    UnregisteredMembers(InfrastructureProcessors(jsr250Present, jpaPresent), registry.beanDefinitions.Keys);
    second := RegisterAnnotationConfigProcessors(registry, source, jsr250Present, jpaPresent);
  }

  // ---------------------------------------------------------------------------------------------
  // Common definition annotations
  // ---------------------------------------------------------------------------------------------

  /** The @Lazy attributes that apply: those on `metadata`, else those on the definition's own metadata when that differs. */
  function EffectiveLazy(metadata: AnnotationMetadata, own: AnnotationMetadata): (r: Option<Attributes>)
    ensures AnnotationAttributesOf(metadata, LazyAnnotation).Some? ==> r == AnnotationAttributesOf(metadata, LazyAnnotation)
    ensures own == metadata ==> r == AnnotationAttributesOf(metadata, LazyAnnotation)
    ensures r.Some? ==> r == AnnotationAttributesOf(metadata, LazyAnnotation) || r == AnnotationAttributesOf(own, LazyAnnotation)
    ensures r.None? <==> AnnotationAttributesOf(metadata, LazyAnnotation).None? && AnnotationAttributesOf(own, LazyAnnotation).None?
  {
    var lazy := AnnotationAttributesOf(metadata, LazyAnnotation);
    if lazy.None? && own != metadata then AnnotationAttributesOf(own, LazyAnnotation) else lazy
  }

  /** A present annotation whose `value` attribute reads successfully with `read`'s type. */
  predicate ReadsBoolean(attrs: Option<Attributes>) { attrs.None? || GetBoolean(attrs.value, "value").Ok? }
  predicate ReadsStringArray(attrs: Option<Attributes>) { attrs.None? || GetStringArray(attrs.value, "value").Ok? }
  predicate ReadsNumber(attrs: Option<Attributes>) { attrs.None? || GetNumber(attrs.value, "value").Ok? }
  predicate ReadsString(attrs: Option<Attributes>) { attrs.None? || GetString(attrs.value, "value").Ok? }

  /** The @Role and @Description steps of processCommonDefinitionAnnotations. */
  function ApplyRoleAndDescription(s: CommonSettings, metadata: AnnotationMetadata)
    : (r: (CommonSettings, Option<AttributeError>))
    ensures r.0.lazyInit == s.lazyInit && r.0.primary == s.primary && r.0.dependsOn == s.dependsOn
    ensures r.1.None? <==>
      ReadsNumber(AnnotationAttributesOf(metadata, RoleAnnotation)) &&
      ReadsString(AnnotationAttributesOf(metadata, DescriptionAnnotation))
    ensures AnnotationAttributesOf(metadata, RoleAnnotation).None? ==> r.0.role == s.role
    ensures var role := AnnotationAttributesOf(metadata, RoleAnnotation);
      r.1.None? && role.Some? ==> r.0.role == GetNumber(role.value, "value").value
    ensures AnnotationAttributesOf(metadata, DescriptionAnnotation).None? ==> r.0.description == s.description
    ensures var description := AnnotationAttributesOf(metadata, DescriptionAnnotation);
      r.1.None? && description.Some? ==> r.0.description == Some(GetString(description.value, "value").value)
  {
    var role := AnnotationAttributesOf(metadata, RoleAnnotation);
    if role.Some? && GetNumber(role.value, "value").Err? then (s, Some(GetNumber(role.value, "value").error))
    else
      var s1 := if role.Some? then s.(role := GetNumber(role.value, "value").value) else s;
      var description := AnnotationAttributesOf(metadata, DescriptionAnnotation);
      if description.Some? && GetString(description.value, "value").Err? then (s1, Some(GetString(description.value, "value").error))
      else if description.Some? then (s1.(description := Some(GetString(description.value, "value").value)), None)
      else (s1, None)
  }

  /** The @DependsOn, @Role and @Description steps of processCommonDefinitionAnnotations. */
  function ApplyFromDependsOn(s: CommonSettings, metadata: AnnotationMetadata)
    : (r: (CommonSettings, Option<AttributeError>))
    ensures r.0.lazyInit == s.lazyInit && r.0.primary == s.primary
    ensures r.1.None? <==>
      ReadsStringArray(AnnotationAttributesOf(metadata, DependsOnAnnotation)) &&
      ReadsNumber(AnnotationAttributesOf(metadata, RoleAnnotation)) &&
      ReadsString(AnnotationAttributesOf(metadata, DescriptionAnnotation))
    ensures AnnotationAttributesOf(metadata, DependsOnAnnotation).None? ==> r.0.dependsOn == s.dependsOn
    ensures var d := AnnotationAttributesOf(metadata, DependsOnAnnotation);
      r.1.None? && d.Some? ==> r.0.dependsOn == Some(GetStringArray(d.value, "value").value)
    ensures AnnotationAttributesOf(metadata, RoleAnnotation).None? ==> r.0.role == s.role
    ensures var role := AnnotationAttributesOf(metadata, RoleAnnotation);
      r.1.None? && role.Some? ==> r.0.role == GetNumber(role.value, "value").value
    ensures AnnotationAttributesOf(metadata, DescriptionAnnotation).None? ==> r.0.description == s.description
    ensures var description := AnnotationAttributesOf(metadata, DescriptionAnnotation);
      r.1.None? && description.Some? ==> r.0.description == Some(GetString(description.value, "value").value)
  {
    var dependsOn := AnnotationAttributesOf(metadata, DependsOnAnnotation);
    if dependsOn.Some? && GetStringArray(dependsOn.value, "value").Err? then (s, Some(GetStringArray(dependsOn.value, "value").error))
    else if dependsOn.Some? then ApplyRoleAndDescription(s.(dependsOn := Some(GetStringArray(dependsOn.value, "value").value)), metadata)
    else ApplyRoleAndDescription(s, metadata)
  }

  /**
   * processCommonDefinitionAnnotations on the settings of a definition whose own metadata is
   * `own`: @Lazy (with the fallback to `own`), @Primary, @DependsOn, @Role, @Description, in
   * that order; a `value` attribute that is missing or mistyped stops the processing with the
   * settings made so far.
   */
  function ApplyCommonDefinitionAnnotations(s: CommonSettings, metadata: AnnotationMetadata, own: AnnotationMetadata)
    : (r: (CommonSettings, Option<AttributeError>))
    ensures s.primary ==> r.0.primary
    ensures var lazy := AnnotationAttributesOf(metadata, LazyAnnotation);
      lazy.Some? && GetBoolean(lazy.value, "value").Ok? ==> r.0.lazyInit == Some(GetBoolean(lazy.value, "value").value)
    ensures var lazy := AnnotationAttributesOf(own, LazyAnnotation);
      (AnnotationAttributesOf(metadata, LazyAnnotation).None? && own != metadata &&
       lazy.Some? && GetBoolean(lazy.value, "value").Ok?) ==> r.0.lazyInit == Some(GetBoolean(lazy.value, "value").value)
    ensures (AnnotationAttributesOf(metadata, LazyAnnotation).None? &&
             (own == metadata || AnnotationAttributesOf(own, LazyAnnotation).None?)) ==> r.0.lazyInit == s.lazyInit
    ensures !ReadsBoolean(EffectiveLazy(metadata, own)) ==> r.0 == s && r.1.Some?
    ensures r.1.None? <==>
      ReadsBoolean(EffectiveLazy(metadata, own)) &&
      ReadsStringArray(AnnotationAttributesOf(metadata, DependsOnAnnotation)) &&
      ReadsNumber(AnnotationAttributesOf(metadata, RoleAnnotation)) &&
      ReadsString(AnnotationAttributesOf(metadata, DescriptionAnnotation))
    ensures r.1.None? ==> (r.0.primary <==> s.primary || IsAnnotated(metadata, PrimaryAnnotation))
    ensures AnnotationAttributesOf(metadata, DependsOnAnnotation).None? ==> r.0.dependsOn == s.dependsOn
    ensures AnnotationAttributesOf(metadata, RoleAnnotation).None? ==> r.0.role == s.role
    ensures AnnotationAttributesOf(metadata, DescriptionAnnotation).None? ==> r.0.description == s.description
  {
    var lazy := EffectiveLazy(metadata, own);
    if lazy.Some? && GetBoolean(lazy.value, "value").Err? then (s, Some(GetBoolean(lazy.value, "value").error))
    else
      var s1 := if lazy.Some? then s.(lazyInit := Some(GetBoolean(lazy.value, "value").value)) else s;
      var s2 := if IsAnnotated(metadata, PrimaryAnnotation) then s1.(primary := true) else s1;
      ApplyFromDependsOn(s2, metadata)
  }

  /** A successful processCommonDefinitionAnnotations sets @DependsOn, @Role and @Description from their `value`s. */
  lemma CommonDefinitionAnnotationsCopied(s: CommonSettings, metadata: AnnotationMetadata, own: AnnotationMetadata)
    ensures var r := ApplyCommonDefinitionAnnotations(s, metadata, own);
      var d := AnnotationAttributesOf(metadata, DependsOnAnnotation);
      var role := AnnotationAttributesOf(metadata, RoleAnnotation);
      var description := AnnotationAttributesOf(metadata, DescriptionAnnotation);
      r.1.None? ==>
        (d.Some? ==> r.0.dependsOn == Some(GetStringArray(d.value, "value").value)) &&
        (role.Some? ==> r.0.role == GetNumber(role.value, "value").value) &&
        (description.Some? ==> r.0.description == Some(GetString(description.value, "value").value))
  {
    var lazy := EffectiveLazy(metadata, own);
    if !(lazy.Some? && GetBoolean(lazy.value, "value").Err?) {
      var s1 := if lazy.Some? then s.(lazyInit := Some(GetBoolean(lazy.value, "value").value)) else s;
      var s2 := if IsAnnotated(metadata, PrimaryAnnotation) then s1.(primary := true) else s1;
      var _ := ApplyFromDependsOn(s2, metadata);
    }
  }

  /**
   * processCommonDefinitionAnnotations(abd, metadata): copy the common definition annotations
   * found on `metadata` onto `abd`; a failed attribute read is returned, with the settings
   * made before it kept.
   */
  method ProcessCommonDefinitionAnnotations(abd: BeanDefinition, metadata: AnnotationMetadata)
    returns (failure: Option<AttributeError>)
    requires abd.metadata.Some?
    modifies abd`lazyInit, abd`primary, abd`dependsOn, abd`role, abd`description
    ensures (abd.Settings(), failure) == ApplyCommonDefinitionAnnotations(old(abd.Settings()), metadata, abd.metadata.value)
  {
    var lazy := AnnotationAttributesOf(metadata, LazyAnnotation);
    if lazy.None? && abd.metadata.value != metadata {
      lazy := AnnotationAttributesOf(abd.metadata.value, LazyAnnotation);
    }
    if lazy.Some? {
      var value := GetBoolean(lazy.value, "value");
      if value.Err? {
        return Some(value.error);
      }
      abd.lazyInit := Some(value.value);
    }
    if IsAnnotated(metadata, PrimaryAnnotation) {
      abd.primary := true;
    }
    var dependsOn := AnnotationAttributesOf(metadata, DependsOnAnnotation);
    if dependsOn.Some? {
      var value := GetStringArray(dependsOn.value, "value");
      if value.Err? {
        return Some(value.error);
      }
      abd.dependsOn := Some(value.value);
    }
    var role := AnnotationAttributesOf(metadata, RoleAnnotation);
    if role.Some? {
      var value := GetNumber(role.value, "value");
      if value.Err? {
        return Some(value.error);
      }
      abd.role := value.value;
    }
    var description := AnnotationAttributesOf(metadata, DescriptionAnnotation);
    if description.Some? {
      var value := GetString(description.value, "value");
      if value.Err? {
        return Some(value.error);
      }
      abd.description := Some(value.value);
    }
    return None;
  }

  /** processCommonDefinitionAnnotations(abd): the same, against the definition's own metadata, so with no @Lazy fallback. */
  method ProcessOwnCommonDefinitionAnnotations(abd: BeanDefinition) returns (failure: Option<AttributeError>)
    requires abd.metadata.Some?
    modifies abd`lazyInit, abd`primary, abd`dependsOn, abd`role, abd`description
    ensures (abd.Settings(), failure) == ApplyCommonDefinitionAnnotations(old(abd.Settings()), abd.metadata.value, abd.metadata.value)
  {
    failure := ProcessCommonDefinitionAnnotations(abd, abd.metadata.value);
  }

  // ---------------------------------------------------------------------------------------------
  // Scoped proxies
  // ---------------------------------------------------------------------------------------------

  datatype ScopedProxyMode = Default | No | Interfaces | TargetClass

  /** What applyScopedProxyMode does with a definition: return it as is, or wrap it in a scoped proxy. */
  datatype ProxyDecision = KeepDefinition | CreateScopedProxy(proxyTargetClass: bool)

  /** applyScopedProxyMode: only mode NO keeps the definition; a proxy is class-based exactly for TARGET_CLASS. */
  function ScopedProxyDecision(mode: ScopedProxyMode): (d: ProxyDecision)
    ensures d.KeepDefinition? <==> mode == No
    ensures d.CreateScopedProxy? ==> (d.proxyTargetClass <==> mode == TargetClass)
  {
    if mode == No then KeepDefinition else CreateScopedProxy(mode == TargetClass)
  }

  // ---------------------------------------------------------------------------------------------
  // Repeatable annotations
  // ---------------------------------------------------------------------------------------------

  /** The container's `value` attribute holds something other than an array of annotations. */
  datatype RepeatableError = ContainerValueNotAnnotationArray(containerClassName: string)

  /** addAttributesIfNotNull: add `attributes`, when present, to an insertion-ordered set. */
  function AddIfNotNull(result: seq<Attributes>, attributes: Option<Attributes>): (r: seq<Attributes>)
    ensures Distinct(result) ==> Distinct(r)
    ensures forall a :: a in r <==> a in result || attributes == Some(a)
    ensures |result| <= |r| && r[..|result|] == result
  {
    if attributes.Some? && attributes.value !in result then result + [attributes.value] else result
  }

  /** addAttributesIfNotNull applied to each element of `xs` in turn. */
  function AddAllIfNotNull(result: seq<Attributes>, xs: seq<Option<Attributes>>): (r: seq<Attributes>)
    ensures Distinct(result) ==> Distinct(r)
    ensures forall a :: a in r <==> a in result || Some(a) in xs
    ensures |result| <= |r| && r[..|result|] == result
    decreases |xs|
  {
    if xs == [] then result
    else
      var init := xs[..|xs| - 1];
      assert forall x :: x in xs <==> x in init || x == xs[|xs| - 1];
      AddIfNotNull(AddAllIfNotNull(result, init), xs[|xs| - 1])
  }

  /** The direct attributes, then the contained ones: each once, and the direct ones first. */
  lemma RepeatableAttributes(direct: Option<Attributes>, contained: seq<Option<Attributes>>)
    ensures var r := AddAllIfNotNull(AddIfNotNull([], direct), contained);
      Distinct(r) &&
      (forall a :: a in r <==> direct == Some(a) || Some(a) in contained) &&
      (direct.Some? ==> |r| > 0 && r[0] == direct.value)
  {
    var first := AddIfNotNull([], direct);
    assert Distinct(first);
    var r := AddAllIfNotNull(first, contained);
    if direct.Some? {
      assert first == [direct.value];
      assert r[..|first|] == first;
    }
  }

  /** The entries of the container annotation's `value` array; none when it is absent or has no `value`. */
  function ContainedAttributes(metadata: AnnotationMetadata, containerClassName: string): (r: seq<Option<Attributes>>)
    ensures AnnotationAttributesOf(metadata, containerClassName).None? ==> r == []
    ensures ContainerValueMistyped(metadata, containerClassName) ==> r == []
    ensures r != [] ==>
      var container := AnnotationAttributesOf(metadata, containerClassName);
      container.Some? && "value" in container.value.entries && container.value.entries["value"] == AnnotationArray(r)
  {
    var container := AnnotationAttributesOf(metadata, containerClassName);
    if container.Some? && "value" in container.value.entries && container.value.entries["value"].AnnotationArray?
    then container.value.entries["value"].entries
    else []
  }

  /** The container is present and has a `value` that is not an array of annotations: the cast in the source fails. */
  predicate ContainerValueMistyped(metadata: AnnotationMetadata, containerClassName: string)
    ensures ContainerValueMistyped(metadata, containerClassName) ==> AnnotationAttributesOf(metadata, containerClassName).Some?
  {
    var container := AnnotationAttributesOf(metadata, containerClassName);
    container.Some? && "value" in container.value.entries && !container.value.entries["value"].AnnotationArray?
  }

  /**
   * attributesForRepeatable: the attributes of the annotation present directly, followed by those
   * held in its container annotation, each once, in order of first appearance.
   */
  method AttributesForRepeatable(metadata: AnnotationMetadata, containerClassName: string, annotationClassName: string)
    returns (r: Result<seq<Attributes>, RepeatableError>)
    ensures r.Err? <==> ContainerValueMistyped(metadata, containerClassName)
    ensures r.Ok? ==> r.value == AddAllIfNotNull(AddIfNotNull([], AnnotationAttributesOf(metadata, annotationClassName)),
                                                 ContainedAttributes(metadata, containerClassName))
    ensures r.Ok? ==> Distinct(r.value)
    ensures r.Ok? ==> forall a :: a in r.value <==>
      AnnotationAttributesOf(metadata, annotationClassName) == Some(a) || Some(a) in ContainedAttributes(metadata, containerClassName)
    ensures r.Ok? && AnnotationAttributesOf(metadata, annotationClassName).Some? ==>
      |r.value| > 0 && r.value[0] == AnnotationAttributesOf(metadata, annotationClassName).value
  {
    var result := AddIfNotNull([], AnnotationAttributesOf(metadata, annotationClassName));
    ghost var direct := result;
    var container := AnnotationAttributesOf(metadata, containerClassName);
    if container.Some? && "value" in container.value.entries {
      var value := container.value.entries["value"];
      if !value.AnnotationArray? {
        return Err(ContainerValueNotAnnotationArray(containerClassName));
      }
      var contained := value.entries;
      for i := 0 to |contained|
        invariant result == AddAllIfNotNull(direct, contained[..i])
      {
        assert contained[..i + 1][..i] == contained[..i];
        result := AddIfNotNull(result, contained[i]);
      }
      assert contained[..|contained|] == contained;
    }
    RepeatableAttributes(AnnotationAttributesOf(metadata, annotationClassName), ContainedAttributes(metadata, containerClassName));
    return Ok(result);
  }
}
