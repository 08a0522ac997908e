/**
 * AnnotationBeanNameGenerator: a bean's name is the `value` its stereotype annotations agree on,
 * or else the decapitalized short name of its class. The generator keeps a cache of
 * meta-annotation closures keyed by annotation type name.
 */
module BeanNaming {
  import opened Wrappers
  import opened JavaText
  import opened Metadata
  import opened Beans

  const ComponentAnnotation: string := "org.springframework.stereotype.Component"
  const ManagedBeanAnnotation: string := "javax.annotation.ManagedBean"
  const NamedAnnotation: string := "javax.inject.Named"

  datatype NamingError =
    /** The IllegalStateException for two stereotype annotations that suggest different names. */
    | InconsistentComponentNames(existing: string, conflicting: string)
    /** The failed Assert.state of a default name built for a definition without a bean class name. */
    | NoBeanClassName

  /** Whether an annotation is a stereotype that may suggest a component name through its `value`. */
  predicate IsStereotypeWithNameValue(annotationType: string, metaAnnotationTypes: set<string>, attributes: Option<Attributes>)
    ensures IsStereotypeWithNameValue(annotationType, metaAnnotationTypes, attributes) ==>
      attributes.Some? && "value" in attributes.value.entries
    ensures (attributes.Some? && "value" in attributes.value.entries &&
             (annotationType == ComponentAnnotation || annotationType == ManagedBeanAnnotation ||
              annotationType == NamedAnnotation || ComponentAnnotation in metaAnnotationTypes)) ==>
      IsStereotypeWithNameValue(annotationType, metaAnnotationTypes, attributes)
  {
    var isStereotype :=
      annotationType == ComponentAnnotation || ComponentAnnotation in metaAnnotationTypes ||
      annotationType == ManagedBeanAnnotation || annotationType == NamedAnnotation;
    isStereotype && attributes.Some? && "value" in attributes.value.entries
  }

  /** The meta-annotation types a compute-if-absent lookup through `cache` yields for `annotationType`. */
  function CachedOrComputed(cache: map<string, set<string>>, metadata: AnnotationMetadata, annotationType: string): set<string> {
    if annotationType in cache then cache[annotationType] else MetaAnnotationTypesOf(metadata, annotationType)
  }

  /** The name the annotation of type `t` contributes: the non-empty String `value` of a qualifying stereotype. */
  function Contribution(metadata: AnnotationMetadata, cache: map<string, set<string>>, t: string): (r: Option<string>)
    ensures AnnotationAttributesOf(metadata, t).None? ==> r.None?
    ensures r.Some? ==>
      HasLength(r.value) && AnnotationAttributesOf(metadata, t).Some? &&
      IsStereotypeWithNameValue(t, CachedOrComputed(cache, metadata, t), AnnotationAttributesOf(metadata, t)) &&
      AnnotationAttributesOf(metadata, t).value.entries["value"] == StringValue(r.value)
  {
    var attributes := AnnotationAttributesOf(metadata, t);
    if attributes.None? || !IsStereotypeWithNameValue(t, CachedOrComputed(cache, metadata, t), attributes) then None
    else match attributes.value.entries["value"]
      case StringValue(s) => if HasLength(s) then Some(s) else None
      case _ => None
  }

  /** The names contributed by the annotation types `types`, in their order. */
  function Contributions(metadata: AnnotationMetadata, cache: map<string, set<string>>, types: seq<string>): (r: seq<string>)
    ensures |r| <= |types|
    decreases |types|
  {
    if types == [] then []
    else
      var last := types[|types| - 1];
      Contributions(metadata, cache, types[..|types| - 1]) +
        (match Contribution(metadata, cache, last) case Some(v) => [v] case None => [])
  }

  /** A name is contributed exactly when some annotation type contributes it; every contributed name is non-empty. */
  lemma {:induction false} ContributionsMembers(metadata: AnnotationMetadata, cache: map<string, set<string>>, types: seq<string>)
    ensures forall v :: v in Contributions(metadata, cache, types) ==> HasLength(v)
    ensures forall v :: v in Contributions(metadata, cache, types) <==>
      exists i :: 0 <= i < |types| && Contribution(metadata, cache, types[i]) == Some(v)
    ensures Contributions(metadata, cache, types) == [] <==>
      forall i :: 0 <= i < |types| ==> Contribution(metadata, cache, types[i]).None?
    decreases |types|
  {
    if types != [] {
      var init, last := types[..|types| - 1], types[|types| - 1];
      ContributionsMembers(metadata, cache, init);
      var tail := match Contribution(metadata, cache, last) case Some(v) => [v] case None => [];
      assert Contributions(metadata, cache, types) == Contributions(metadata, cache, init) + tail;
      assert forall i :: 0 <= i < |init| ==> types[i] == init[i];
      forall v ensures v in Contributions(metadata, cache, types) <==>
        exists i :: 0 <= i < |types| && Contribution(metadata, cache, types[i]) == Some(v)
      {
        if v in Contributions(metadata, cache, init) {
          var i :| 0 <= i < |init| && Contribution(metadata, cache, init[i]) == Some(v);
          assert types[i] == init[i];
        }
        if exists i :: 0 <= i < |types| && Contribution(metadata, cache, types[i]) == Some(v) {
          var i :| 0 <= i < |types| && Contribution(metadata, cache, types[i]) == Some(v);
          if i < |init| {
            assert Contribution(metadata, cache, init[i]) == Some(v);
          }
        }
      }
    }
  }

  lemma {:induction false} ContributionsAppend(metadata: AnnotationMetadata, cache: map<string, set<string>>, a: seq<string>, b: seq<string>)
    ensures Contributions(metadata, cache, a + b) == Contributions(metadata, cache, a) + Contributions(metadata, cache, b)
    decreases |b|
  {
    if b == [] {
      assert a + b == a;
    } else {
      var b' := b[..|b| - 1];
      assert (a + b)[..|a + b| - 1] == a + b';
      ContributionsAppend(metadata, cache, a, b');
    }
  }

  /** The index of the first element of `c` at or after `from` that differs from `v`, or |c| if there is none. */
  function FirstDifferent(c: seq<string>, v: string, from: nat): (k: nat)
    requires from <= |c|
    ensures from <= k <= |c|
    ensures forall j :: from <= j < k ==> c[j] == v
    ensures k < |c| ==> c[k] != v
    decreases |c| - from
  {
    if from == |c| || c[from] != v then from else FirstDifferent(c, v, from + 1)
  }

  /**
   * The outcome of scanning the contributed names: none, the one name they all agree on, or the
   * conflict between the first name and the first name that differs from it.
   */
  function ExplicitName(c: seq<string>): (r: Result<Option<string>, NamingError>)
    ensures r == Ok(None) <==> c == []
    ensures (r.Ok? && r.value.Some?) <==> (c != [] && forall j :: 0 <= j < |c| ==> c[j] == c[0])
    ensures r.Ok? && r.value.Some? ==> r.value.value == c[0]
    ensures r.Err? <==> exists i, j :: 0 <= i < |c| && 0 <= j < |c| && c[i] != c[j]
    ensures r.Err? ==> exists k :: (0 < k < |c| && c[k] != c[0] && r.error == InconsistentComponentNames(c[0], c[k]) &&
      forall j :: 0 <= j < k ==> c[j] == c[0])
  {
    if c == [] then Ok(None)
    else
      var k := FirstDifferent(c, c[0], 0);
      if k == |c| then Ok(Some(c[0])) else Err(InconsistentComponentNames(c[0], c[k]))
  }

  /** Once the names scanned so far conflict, later names do not change the outcome. */
  lemma ConflictIsFinal(c: seq<string>, d: seq<string>)
    requires ExplicitName(c).Err?
    ensures ExplicitName(c + d) == ExplicitName(c)
  {
    var k1 := FirstDifferent(c, c[0], 0);
    var k2 := FirstDifferent(c + d, (c + d)[0], 0);
    assert (c + d)[0] == c[0];
    assert (c + d)[k1] == c[k1];
    assert k2 <= k1;
  }

  /** Names that all equal the first one yield that name. */
  lemma AgreementIsExplicit(c: seq<string>)
    requires c != [] && forall j :: 0 <= j < |c| ==> c[j] == c[0]
    ensures ExplicitName(c) == Ok(Some(c[0]))
  {
  }

  /** After names that all agree, the first name that differs is the conflict reported. */
  lemma FirstConflict(c: seq<string>, v: string)
    requires c != [] && forall j :: 0 <= j < |c| ==> c[j] == c[0]
    requires v != c[0]
    ensures ExplicitName(c + [v]) == Err(InconsistentComponentNames(c[0], v))
  {
    var c' := c + [v];
    assert c'[0] == c[0];
    assert c'[|c|] == v;
    assert forall j :: 0 <= j < |c| ==> c'[j] == c[0];
    assert FirstDifferent(c', c[0], 0) == |c|;
  }

  /** Introspector.decapitalize on a non-null name. */
  function Decapitalize(name: string): (r: string)
    ensures |r| == |name|
    ensures |name| >= 2 && IsUpperCase(name[0]) && IsUpperCase(name[1]) ==> r == name
    ensures |name| > 0 && !(|name| >= 2 && IsUpperCase(name[0]) && IsUpperCase(name[1])) ==>
      r[0] == ToLowerCase(name[0]) && r[1..] == name[1..]
    ensures |r| > 0 && IsUpperCase(r[0]) ==> r == name && |r| >= 2 && IsUpperCase(r[1])
  {
    if |name| == 0 then name
    else if |name| > 1 && IsUpperCase(name[1]) && IsUpperCase(name[0]) then name
    else [ToLowerCase(name[0])] + name[1..]
  }

  /** The part of a class name after its last '.'. */
  function AfterLastDot(s: string): (r: string)
    ensures '.' !in r
    ensures |r| <= |s| && r == s[|s| - |r|..]
    ensures |r| < |s| ==> s[|s| - |r| - 1] == '.'
    decreases |s|
  {
    if s == [] || s[|s| - 1] == '.' then [] else AfterLastDot(s[..|s| - 1]) + [s[|s| - 1]]
  }

  /** The short name of a class: the part after the package, with the '$' of nested classes written as '.'. */
  function ShortName(className: string): (r: string)
    ensures |r| <= |className| && '$' !in r
    ensures '$' !in AfterLastDot(className) ==> r == AfterLastDot(className)
  {
    DollarsToDots(AfterLastDot(className))
  }

  /** `s` with every '$' replaced by '.'. */
  function DollarsToDots(s: string): (r: string)
    ensures |r| == |s| && '$' !in r
    ensures forall i :: 0 <= i < |s| ==> r[i] == if s[i] == '$' then '.' else s[i]
    ensures '$' !in s ==> r == s
    decreases |s|
  {
    if s == [] then []
    else
      var init := s[..|s| - 1];
      assert '$' !in s ==> '$' !in init;
      assert s == init + [s[|s| - 1]];
      DollarsToDots(init) + [if s[|s| - 1] == '$' then '.' else s[|s| - 1]]
  }

  /** buildDefaultBeanName: the decapitalized short class name; fails when no bean class name is set. */
  function DefaultBeanName(beanClassName: Option<string>): (r: Result<string, NamingError>)
    ensures r.Err? <==> beanClassName.None?
    ensures r.Err? ==> r.error == NoBeanClassName
    ensures r.Ok? ==> |r.value| == |ShortName(beanClassName.value)|
  {
    match beanClassName
    case None => Err(NoBeanClassName)
    case Some(name) => Ok(Decapitalize(ShortName(name)))
  }

  /** The short name of a qualified name is its last segment. */
  lemma {:induction false} AfterLastDotOfQualified(packageName: string, simpleName: string)
    requires '.' !in simpleName
    ensures AfterLastDot(packageName + "." + simpleName) == simpleName
    decreases |simpleName|
  {
    var q := packageName + "." + simpleName;
    if simpleName == [] {
      assert q[|q| - 1] == '.';
    } else {
      var init := simpleName[..|simpleName| - 1];
      assert q[..|q| - 1] == packageName + "." + init;
      assert q[|q| - 1] == simpleName[|simpleName| - 1];
      AfterLastDotOfQualified(packageName, init);
      assert init + [simpleName[|simpleName| - 1]] == simpleName;
    }
  }

  /** The short name of a class in a package, with no nested-class '$', is its simple name. */
  lemma ShortNameOfQualified(packageName: string, simpleName: string)
    requires '.' !in simpleName && '$' !in simpleName
    ensures ShortName(packageName + "." + simpleName) == simpleName
  {
    AfterLastDotOfQualified(packageName, simpleName);
  }

  /** The default name of a class in a package is the decapitalized simple name. */
  lemma DefaultBeanNameOfQualified(packageName: string, simpleName: string)
    requires '.' !in simpleName && '$' !in simpleName
    ensures DefaultBeanName(Some(packageName + "." + simpleName)) == Ok(Decapitalize(simpleName))
  {
    ShortNameOfQualified(packageName, simpleName);
  }

  /** An inner class `package.Outer$Inner` has the short name `Outer.Inner`. */
  lemma ShortNameOfNested(packageName: string, outerName: string, innerName: string)
    requires '.' !in outerName && '$' !in outerName
    requires '.' !in innerName && '$' !in innerName
    ensures ShortName(packageName + "." + outerName + "$" + innerName) == outerName + "." + innerName
  {
    var binary := outerName + "$" + innerName;
    assert packageName + "." + outerName + "$" + innerName == packageName + "." + binary;
    assert '.' !in binary;
    AfterLastDotOfQualified(packageName, binary);
    DollarsToDotsOfBinaryName(outerName, innerName);
  }

  /** The binary name `Outer$Inner` of an inner class becomes `Outer.Inner`. */
  lemma DollarsToDotsOfBinaryName(outerName: string, innerName: string)
    requires '$' !in outerName && '$' !in innerName
    ensures DollarsToDots(outerName + "$" + innerName) == outerName + "." + innerName
  {
    var binary, dotted := outerName + "$" + innerName, outerName + "." + innerName;
    var r := DollarsToDots(binary);
    forall i | 0 <= i < |r| ensures r[i] == dotted[i] {
      if i < |outerName| {
        assert binary[i] == outerName[i] && dotted[i] == outerName[i];
      } else if i > |outerName| {
        assert binary[i] == innerName[i - |outerName| - 1] && dotted[i] == innerName[i - |outerName| - 1];
      }
    }
  }

  /** The default name of an inner class is the decapitalized `Outer.Inner`. */
  lemma DefaultBeanNameOfNested(packageName: string, outerName: string, innerName: string)
    requires '.' !in outerName && '$' !in outerName
    requires '.' !in innerName && '$' !in innerName
    ensures DefaultBeanName(Some(packageName + "." + outerName + "$" + innerName)) ==
      Ok(Decapitalize(outerName + "." + innerName))
  {
    ShortNameOfNested(packageName, outerName, innerName);
  }

  /** A simple class name: neither a package separator nor a nested-class separator in it. */
  lemma SimpleClassName(simpleName: string)
    requires forall i :: 0 <= i < |simpleName| ==> simpleName[i] != '.' && simpleName[i] != '$'
    ensures '.' !in simpleName && '$' !in simpleName
  {
  }

  /** A literal class name spelled as package, dot and simple name. */
  lemma QualifiedName(packageName: string, simpleName: string, className: string)
    requires |className| == |packageName| + 1 + |simpleName|
    requires className[..|packageName|] == packageName && className[|packageName|] == '.'
    requires className[|packageName| + 1..] == simpleName
    ensures packageName + "." + simpleName == className
  {
    assert className == className[..|packageName|] + [className[|packageName|]] + className[|packageName| + 1..];
  }

  lemma ShortNameOfFooServiceImpl()
    ensures ShortName("com.xyz.FooServiceImpl") == "FooServiceImpl"
  {
    QualifiedName("com.xyz", "FooServiceImpl", "com.xyz.FooServiceImpl");
    SimpleClassName("FooServiceImpl");
    ShortNameOfQualified("com.xyz", "FooServiceImpl");
  }

  lemma DecapitalizeFooServiceImpl()
    ensures Decapitalize("FooServiceImpl") == "fooServiceImpl"
  {
  }

  lemma DefaultBeanNameOfFooServiceImpl()
    ensures DefaultBeanName(Some("com.xyz.FooServiceImpl")) == Ok("fooServiceImpl")
  {
    ShortNameOfFooServiceImpl();
    DecapitalizeFooServiceImpl();
  }

  lemma ShortNameOfUrlFooServiceImpl()
    ensures ShortName("com.xyz.URLFooServiceImpl") == "URLFooServiceImpl"
  {
    QualifiedName("com.xyz", "URLFooServiceImpl", "com.xyz.URLFooServiceImpl");
    SimpleClassName("URLFooServiceImpl");
    ShortNameOfQualified("com.xyz", "URLFooServiceImpl");
  }

  lemma DefaultBeanNameOfUrlFooServiceImpl()
    ensures DefaultBeanName(Some("com.xyz.URLFooServiceImpl")) == Ok("URLFooServiceImpl")
  {
    ShortNameOfUrlFooServiceImpl();
  }

  lemma ShortNameOfMyJdbcDao()
    ensures ShortName("mypackage.MyJdbcDao") == "MyJdbcDao"
  {
    QualifiedName("mypackage", "MyJdbcDao", "mypackage.MyJdbcDao");
    SimpleClassName("MyJdbcDao");
    ShortNameOfQualified("mypackage", "MyJdbcDao");
  }

  lemma DecapitalizeMyJdbcDao()
    ensures Decapitalize("MyJdbcDao") == "myJdbcDao"
  {
  }

  lemma DefaultBeanNameOfMyJdbcDao()
    ensures DefaultBeanName(Some("mypackage.MyJdbcDao")) == Ok("myJdbcDao")
  {
    ShortNameOfMyJdbcDao();
    DecapitalizeMyJdbcDao();
  }

  /** generateBeanName: the explicit name if it has text, otherwise the default name. */
  function BeanName(metadata: Option<AnnotationMetadata>, beanClassName: Option<string>, cache: map<string, set<string>>)
    : (r: Result<string, NamingError>)
    ensures metadata.None? ==> r == DefaultBeanName(beanClassName)
    ensures r.Ok? ==>
      r == DefaultBeanName(beanClassName) ||
      (metadata.Some? && HasText(r.value) && r.value in Contributions(metadata.value, cache, metadata.value.annotationTypes))
    ensures r.Err? ==> r == DefaultBeanName(beanClassName) || r.error.InconsistentComponentNames?
  {
    if metadata.None? then DefaultBeanName(beanClassName)
    else match ExplicitName(Contributions(metadata.value, cache, metadata.value.annotationTypes))
      case Err(e) => Err(e)
      case Ok(name) => if name.Some? && HasText(name.value) then Ok(name.value) else DefaultBeanName(beanClassName)
  }

  /** An annotation type other than the three stereotypes qualifies only through Component among its meta-annotations. */
  lemma CustomStereotypeQualifiesThroughComponent(annotationType: string, metaAnnotationTypes: set<string>, attributes: Option<Attributes>)
    requires annotationType != ComponentAnnotation && annotationType != ManagedBeanAnnotation && annotationType != NamedAnnotation
    ensures IsStereotypeWithNameValue(annotationType, metaAnnotationTypes, attributes) <==>
      ComponentAnnotation in metaAnnotationTypes && attributes.Some? && "value" in attributes.value.entries
  {
  }

  /** An annotation contributes exactly the non-empty String `value` of a qualifying stereotype; a value of another type, or "", contributes nothing. */
  lemma ContributionIsNonEmptyStringValue(metadata: AnnotationMetadata, cache: map<string, set<string>>, t: string, v: string)
    ensures Contribution(metadata, cache, t) == Some(v) <==>
      t in metadata.attributes &&
      IsStereotypeWithNameValue(t, CachedOrComputed(cache, metadata, t), Some(metadata.attributes[t])) &&
      metadata.attributes[t].entries["value"] == StringValue(v) && v != ""
  {
  }

  /** Stereotypes that all suggest the same name `v` name the bean `v`, unless `v` is blank, which falls through to the default name. */
  lemma AgreeingStereotypesNameTheBean(metadata: AnnotationMetadata, beanClassName: Option<string>, cache: map<string, set<string>>, v: string)
    requires exists i :: 0 <= i < |metadata.annotationTypes| && Contribution(metadata, cache, metadata.annotationTypes[i]) == Some(v)
    requires forall i :: 0 <= i < |metadata.annotationTypes| ==>
      Contribution(metadata, cache, metadata.annotationTypes[i]) in {None, Some(v)}
    ensures BeanName(Some(metadata), beanClassName, cache) == if HasText(v) then Ok(v) else DefaultBeanName(beanClassName)
  {
    var c := Contributions(metadata, cache, metadata.annotationTypes);
    ContributionsMembers(metadata, cache, metadata.annotationTypes);
    assert v in c;
    forall j | 0 <= j < |c| ensures c[j] == v {
      assert c[j] in c;
    }
    AgreementIsExplicit(c);
  }

  /** Two stereotypes suggesting different names make name generation fail with the inconsistent-names error. */
  lemma DifferingStereotypesConflict(metadata: AnnotationMetadata, beanClassName: Option<string>, cache: map<string, set<string>>, i: nat, j: nat)
    requires i < |metadata.annotationTypes| && j < |metadata.annotationTypes|
    requires Contribution(metadata, cache, metadata.annotationTypes[i]).Some?
    requires Contribution(metadata, cache, metadata.annotationTypes[j]).Some?
    requires Contribution(metadata, cache, metadata.annotationTypes[i]) != Contribution(metadata, cache, metadata.annotationTypes[j])
    ensures BeanName(Some(metadata), beanClassName, cache).Err?
    ensures BeanName(Some(metadata), beanClassName, cache).error.InconsistentComponentNames?
  {
    var c := Contributions(metadata, cache, metadata.annotationTypes);
    ContributionIsContributed(metadata, cache, metadata.annotationTypes, i);
    ContributionIsContributed(metadata, cache, metadata.annotationTypes, j);
    var a :| 0 <= a < |c| && c[a] == Contribution(metadata, cache, metadata.annotationTypes[i]).value;
    var b :| 0 <= b < |c| && c[b] == Contribution(metadata, cache, metadata.annotationTypes[j]).value;
    assert c[a] != c[b];
  }

  /** The name an annotation type contributes is among the contributed names. */
  lemma ContributionIsContributed(metadata: AnnotationMetadata, cache: map<string, set<string>>, types: seq<string>, i: nat)
    requires i < |types| && Contribution(metadata, cache, types[i]).Some?
    ensures Contribution(metadata, cache, types[i]).value in Contributions(metadata, cache, types)
  {
    ContributionsMembers(metadata, cache, types);
  }

  /** Without a stereotype that suggests a name, the bean gets the default name. */
  lemma UnnamedBeanGetsDefaultName(metadata: AnnotationMetadata, beanClassName: Option<string>, cache: map<string, set<string>>)
    requires forall i :: 0 <= i < |metadata.annotationTypes| ==> Contribution(metadata, cache, metadata.annotationTypes[i]).None?
    ensures BeanName(Some(metadata), beanClassName, cache) == DefaultBeanName(beanClassName)
  {
    var c := Contributions(metadata, cache, metadata.annotationTypes);
    ContributionsMembers(metadata, cache, metadata.annotationTypes);
  }

  /** The cache after compute-if-absent lookups for those of `types` that are present in `metadata`, in order. */
  ghost function CacheAfter(cache: map<string, set<string>>, metadata: AnnotationMetadata, types: seq<string>): map<string, set<string>>
    decreases |types|
  {
    if types == [] then cache
    else
      var before := CacheAfter(cache, metadata, types[..|types| - 1]);
      var t := types[|types| - 1];
      if t in metadata.attributes then before[t := CachedOrComputed(before, metadata, t)] else before
  }

  /** Lookups through the grown cache give what they gave through the original one. */
  lemma {:induction false} CacheLookupIsStable(cache: map<string, set<string>>, metadata: AnnotationMetadata, types: seq<string>, t: string)
    ensures CachedOrComputed(CacheAfter(cache, metadata, types), metadata, t) == CachedOrComputed(cache, metadata, t)
    decreases |types|
  {
    if types != [] {
      CacheLookupIsStable(cache, metadata, types[..|types| - 1], t);
      CacheLookupIsStable(cache, metadata, types[..|types| - 1], types[|types| - 1]);
    }
  }

  /**
   * The cache only grows: existing entries keep their value, and the new keys are exactly the
   * scanned annotation types that are present, each mapped to its meta-annotation closure.
   */
  lemma {:induction false} CacheAfterExtends(cache: map<string, set<string>>, metadata: AnnotationMetadata, types: seq<string>)
    ensures forall t :: t in cache ==> t in CacheAfter(cache, metadata, types) && CacheAfter(cache, metadata, types)[t] == cache[t]
    ensures forall t :: t in CacheAfter(cache, metadata, types) && t !in cache ==>
      t in types && t in metadata.attributes && CacheAfter(cache, metadata, types)[t] == MetaAnnotationTypesOf(metadata, t)
    ensures forall t :: t in types && t in metadata.attributes ==> t in CacheAfter(cache, metadata, types)
    decreases |types|
  {
    if types != [] {
      var init := types[..|types| - 1];
      CacheAfterExtends(cache, metadata, init);
      assert forall t :: t in types ==> t in init || t == types[|types| - 1];
      assert forall t :: t in init ==> t in types;
    }
  }

  /** The names contributed through a cache grown by scanning the same metadata are those contributed through the original. */
  lemma {:induction false} ContributionsIgnoreCacheGrowth(metadata: AnnotationMetadata, cache: map<string, set<string>>,
                                                          scanned: seq<string>, types: seq<string>)
    ensures Contributions(metadata, CacheAfter(cache, metadata, scanned), types) == Contributions(metadata, cache, types)
    decreases |types|
  {
    if types != [] {
      ContributionsIgnoreCacheGrowth(metadata, cache, scanned, types[..|types| - 1]);
      CacheLookupIsStable(cache, metadata, scanned, types[|types| - 1]);
    }
  }

  /** The name generated for metadata is the same through a cache grown by scanning that metadata. */
  lemma BeanNameIgnoresOwnCacheGrowth(metadata: AnnotationMetadata, beanClassName: Option<string>,
                                      cache: map<string, set<string>>, scanned: seq<string>)
    ensures BeanName(Some(metadata), beanClassName, CacheAfter(cache, metadata, scanned)) ==
      BeanName(Some(metadata), beanClassName, cache)
  {
    ContributionsIgnoreCacheGrowth(metadata, cache, scanned, metadata.annotationTypes);
  }

  /** Scanning one more annotation type appends its contribution and caches its closure, looked up as in the original cache. */
  lemma ScanStep(metadata: AnnotationMetadata, cache: map<string, set<string>>, types: seq<string>, i: nat)
    requires i < |types|
    ensures Contributions(metadata, cache, types[..i + 1]) ==
      Contributions(metadata, cache, types[..i]) +
        (match Contribution(metadata, cache, types[i]) case Some(v) => [v] case None => [])
    ensures var grown := CacheAfter(cache, metadata, types[..i]);
      CachedOrComputed(grown, metadata, types[i]) == CachedOrComputed(cache, metadata, types[i]) &&
      CacheAfter(cache, metadata, types[..i + 1]) ==
        (if types[i] in metadata.attributes then grown[types[i] := CachedOrComputed(grown, metadata, types[i])] else grown)
  {
    assert types[..i + 1][..i] == types[..i];
    CacheLookupIsStable(cache, metadata, types[..i], types[i]);
  }

  /** A name that differs from the ones agreed on so far makes the whole scan inconsistent, whatever follows. */
  lemma ConflictIsReported(metadata: AnnotationMetadata, cache: map<string, set<string>>, types: seq<string>, i: nat, v: string)
    requires i < |types|
    requires var c := Contributions(metadata, cache, types[..i]);
      c != [] && (forall j :: 0 <= j < |c| ==> c[j] == c[0]) && v != c[0]
    requires Contributions(metadata, cache, types[..i + 1]) == Contributions(metadata, cache, types[..i]) + [v]
    ensures ExplicitName(Contributions(metadata, cache, types)) ==
      Err(InconsistentComponentNames(Contributions(metadata, cache, types[..i])[0], v))
  {
    var before := Contributions(metadata, cache, types[..i]);
    var upTo := Contributions(metadata, cache, types[..i + 1]);
    FirstConflict(before, v);
    assert types == types[..i + 1] + types[i + 1..];
    ContributionsAppend(metadata, cache, types[..i + 1], types[i + 1..]);
    ConflictIsFinal(upTo, Contributions(metadata, cache, types[i + 1..]));
  }

  class AnnotationBeanNameGenerator {
    var metaAnnotationTypesCache: map<string, set<string>>

    constructor ()
      ensures metaAnnotationTypesCache == map[]
    {
      metaAnnotationTypesCache := map[];
    }

    /** computeIfAbsent on the cache: an existing entry is returned as it is, a missing one is computed and stored. */
    method MetaAnnotationTypes(metadata: AnnotationMetadata, annotationType: string) returns (metaTypes: set<string>)
      modifies this
      ensures metaTypes == CachedOrComputed(old(metaAnnotationTypesCache), metadata, annotationType)
      ensures metaAnnotationTypesCache == old(metaAnnotationTypesCache)[annotationType := metaTypes]
    {
      if annotationType !in metaAnnotationTypesCache {
        var result := MetaAnnotationTypesOf(metadata, annotationType);
        metaAnnotationTypesCache := metaAnnotationTypesCache[annotationType := result];
      }
      metaTypes := metaAnnotationTypesCache[annotationType];
    }

    /**
     * One step of the scan, up to the name check: the name the annotation of type `t` contributes,
     * its meta-annotation types looked up (and, when absent, stored) through the cache.
     */
    method ContributionThroughCache(metadata: AnnotationMetadata, t: string) returns (contribution: Option<string>)
      modifies this
      ensures contribution == Contribution(metadata, old(metaAnnotationTypesCache), t)
      ensures metaAnnotationTypesCache ==
        if t in metadata.attributes
        then old(metaAnnotationTypesCache)[t := CachedOrComputed(old(metaAnnotationTypesCache), metadata, t)]
        else old(metaAnnotationTypesCache)
    {
      contribution := None;
      var attributes := AnnotationAttributesOf(metadata, t);
      if attributes.Some? {
        var metaTypes := MetaAnnotationTypes(metadata, t);
        if IsStereotypeWithNameValue(t, metaTypes, attributes) {
          var value := attributes.value.entries["value"];
          if value.StringValue? {
            var strVal := value.s;
            if HasLength(strVal) {
              contribution := Some(strVal);
            }
          }
        }
      }
    }

    method DetermineBeanNameFromAnnotation(metadata: AnnotationMetadata) returns (r: Result<Option<string>, NamingError>)
      modifies this
      ensures r == ExplicitName(Contributions(metadata, old(metaAnnotationTypesCache), metadata.annotationTypes))
      ensures r.Ok? ==> metaAnnotationTypesCache == CacheAfter(old(metaAnnotationTypesCache), metadata, metadata.annotationTypes)
      ensures exists k :: (0 <= k <= |metadata.annotationTypes| &&
        metaAnnotationTypesCache == CacheAfter(old(metaAnnotationTypesCache), metadata, metadata.annotationTypes[..k]))
    {
      ghost var cache0 := metaAnnotationTypesCache;
      var types := metadata.annotationTypes;
      var beanName: Option<string> := None;
      var i := 0;
      while i < |types|
        invariant 0 <= i <= |types|
        invariant var c := Contributions(metadata, cache0, types[..i]);
          (beanName.None? <==> c == []) && (beanName.Some? ==> forall j :: 0 <= j < |c| ==> c[j] == beanName.value)
        invariant metaAnnotationTypesCache == CacheAfter(cache0, metadata, types[..i])
      {
        var t := types[i];
        ghost var before := Contributions(metadata, cache0, types[..i]);
        ScanStep(metadata, cache0, types, i);
        var contribution := ContributionThroughCache(metadata, t);
        assert Contributions(metadata, cache0, types[..i + 1]) ==
          before + (match contribution case Some(v) => [v] case None => []);
        if contribution.Some? {
          var strVal := contribution.value;
          if beanName.Some? && strVal != beanName.value {
            ConflictIsReported(metadata, cache0, types, i, strVal);
            return Err(InconsistentComponentNames(beanName.value, strVal));
          }
          beanName := Some(strVal);
        }
        i := i + 1;
      }
      assert types[..i] == types;
      if beanName.Some? {
        AgreementIsExplicit(Contributions(metadata, cache0, types));
      }
      r := Ok(beanName);
    }

    /** generateBeanName for `definition`; its registry argument is not consulted by this generator. */
    method GenerateBeanName(definition: BeanDefinition) returns (r: Result<string, NamingError>)
      modifies this
      ensures r == BeanName(definition.metadata, definition.beanClassName, old(metaAnnotationTypesCache))
      ensures forall t :: t in old(metaAnnotationTypesCache) ==>
        t in metaAnnotationTypesCache && metaAnnotationTypesCache[t] == old(metaAnnotationTypesCache)[t]
      ensures definition.metadata.None? ==> metaAnnotationTypesCache == old(metaAnnotationTypesCache)
      ensures definition.metadata.Some? ==>
        exists k :: (0 <= k <= |definition.metadata.value.annotationTypes| &&
          metaAnnotationTypesCache ==
            CacheAfter(old(metaAnnotationTypesCache), definition.metadata.value, definition.metadata.value.annotationTypes[..k]))
    {
      if definition.metadata.Some? {
        ghost var cache0 := metaAnnotationTypesCache;
        var beanName := DetermineBeanNameFromAnnotation(definition.metadata.value);
        ghost var k :| 0 <= k <= |definition.metadata.value.annotationTypes| &&
          metaAnnotationTypesCache == CacheAfter(cache0, definition.metadata.value, definition.metadata.value.annotationTypes[..k]);
        CacheAfterExtends(cache0, definition.metadata.value, definition.metadata.value.annotationTypes[..k]);
        if beanName.Err? {
          return Err(beanName.error);
        }
        if beanName.value.Some? && HasText(beanName.value.value) {
          return Ok(beanName.value.value);
        }
      }
      r := DefaultBeanName(definition.beanClassName);
    }

    /** Naming the same definition twice gives the same name: what the first call caches does not change the outcome. */
    method GenerateBeanNameTwice(definition: BeanDefinition) returns (first: Result<string, NamingError>, second: Result<string, NamingError>)
      modifies this
      ensures first == BeanName(definition.metadata, definition.beanClassName, old(metaAnnotationTypesCache))
      ensures second == first
    {
      ghost var cache0 := metaAnnotationTypesCache;
      first := GenerateBeanName(definition);
      if definition.metadata.Some? {
        var metadata := definition.metadata.value;
        ghost var k :| 0 <= k <= |metadata.annotationTypes| &&
          metaAnnotationTypesCache == CacheAfter(cache0, metadata, metadata.annotationTypes[..k]);
        BeanNameIgnoresOwnCacheGrowth(metadata, definition.beanClassName, cache0, metadata.annotationTypes[..k]);
      }
      second := GenerateBeanName(definition);
    }
  }
}
