/** The life of one MapperOptions.Builder as a sequence of calls: setters,
    then `build()`, then possibly more calls. Proves that the lock engages
    at the first `build()` and never releases, that setters fail exactly
    after it, and that the cached snapshot is the builder as it stood at
    that first `build()`. */
module BuilderLifecycle {
  import opened Wrappers
  import opened Mapping

  datatype Call = SetterCall(setter: Setter) | BuildCall

  /** Runs `calls` on the builder, stopping at the first exception. The
      service loader finds `plugins` whenever it is consulted. */
  function Run(b: Builder, calls: seq<Call>, plugins: seq<Convention>): Result<Builder, MappingError>
    decreases |calls|
  {
    if calls == [] then Success(b)
    else
      match calls[0]
      case SetterCall(s) =>
        (match Apply(b, s)
         case Failure(e) => Failure(e)
         case Success(next) => Run(next, calls[1..], plugins))
      case BuildCall => Run(Build(b, plugins).0, calls[1..], plugins)
  }

  /** A call that throws on a locked builder. */
  predicate Throws(c: Call) {
    c.SetterCall? && c.setter.LockChecked()
  }

  /** One `addConvention` call per element of `cs`, in order. */
  function AddAll(cs: seq<Convention>): seq<Call> {
    if cs == [] then [] else [SetterCall(AddConvention(cs[0]))] + AddAll(cs[1..])
  }

  /** Running two call sequences one after the other. */
  lemma {:induction false} RunAppend(b: Builder, xs: seq<Call>, ys: seq<Call>, plugins: seq<Convention>)
    ensures Run(b, xs + ys, plugins) ==
            match Run(b, xs, plugins)
            case Failure(e) => Failure(e)
            case Success(mid) => Run(mid, ys, plugins)
    decreases |xs|
  {
    if xs == [] {
      assert xs + ys == ys;
    } else {
      assert (xs + ys)[0] == xs[0];
      assert (xs + ys)[1..] == xs[1..] + ys;
      match xs[0]
      case SetterCall(s) =>
        if Apply(b, s).Success? {
          RunAppend(Apply(b, s).value, xs[1..], ys, plugins);
        }
      case BuildCall =>
        RunAppend(Build(b, plugins).0, xs[1..], ys, plugins);
    }
  }

  // Each setter writes its target. The proof is split into groups of three
  // setters only to keep each proof obligation small for the solver; the
  // lemma that matters is `AssignHitsTarget` below.

  lemma AssignHitsTarget1(b: Builder, s: Setter)
    requires s.AddConvention? || s.SetCacheClassLookups? || s.SetClassLoader?
    ensures Target(s).Some? && Assign(b, s).Get(Target(s).value) == Written(b, s)
  {
  }

  lemma AssignHitsTarget2(b: Builder, s: Setter)
    requires s.SetCollectionNaming? || s.SetDateStorage? || s.SetDiscriminator?
    ensures Target(s).Some? && Assign(b, s).Get(Target(s).value) == Written(b, s)
  {
  }

  lemma AssignHitsTarget3(b: Builder, s: Setter)
    requires s.SetDiscriminatorKey? || s.SetEnablePolymorphicQueries? || s.SetFetchReferencesViaAggregation?
    ensures Target(s).Some? && Assign(b, s).Get(Target(s).value) == Written(b, s)
  {
  }

  lemma AssignHitsTarget4(b: Builder, s: Setter)
    requires s.SetIgnoreFinals? || s.SetMapSubPackages? || s.SetPropertyDiscovery?
    ensures Target(s).Some? && Assign(b, s).Get(Target(s).value) == Written(b, s)
  {
  }

  lemma AssignHitsTarget5(b: Builder, s: Setter)
    requires s.SetPropertyNaming? || s.SetQueryFactory? || s.SetStoreEmpties?
    ensures Target(s).Some? && Assign(b, s).Get(Target(s).value) == Written(b, s)
  {
  }

  lemma AssignHitsTarget6(b: Builder, s: Setter)
    requires s.SetStoreNulls? || s.SetUuidRepresentation?
    ensures Target(s).Some? && Assign(b, s).Get(Target(s).value) == Written(b, s)
  {
  }

  /** The assignment a setter makes reaches its target field. */
  lemma {:induction false} AssignHitsTarget(b: Builder, s: Setter)
    requires Target(s).Some?
    ensures Assign(b, s).Get(Target(s).value) == Written(b, s)
    decreases s.Depth()
  {
    if s.SetDateForm? {
      AssignHitsTarget(b, SetDateStorage(s.storage));
    } else if s.SetFieldNaming? {
      AssignHitsTarget(b, SetPropertyNaming(s.strategy));
    } else if s.UseLowerCaseCollectionNames? {
      AssignHitsTarget(b, SetCollectionNaming(LowerCase));
    } else if s.AddConvention? || s.SetCacheClassLookups? || s.SetClassLoader? {
      AssignHitsTarget1(b, s);
    } else if s.SetCollectionNaming? || s.SetDateStorage? || s.SetDiscriminator? {
      AssignHitsTarget2(b, s);
    } else if s.SetDiscriminatorKey? || s.SetEnablePolymorphicQueries?
              || s.SetFetchReferencesViaAggregation? {
      AssignHitsTarget3(b, s);
    } else if s.SetIgnoreFinals? || s.SetMapSubPackages? || s.SetPropertyDiscovery? {
      AssignHitsTarget4(b, s);
    } else if s.SetPropertyNaming? || s.SetQueryFactory? || s.SetStoreEmpties? {
      AssignHitsTarget5(b, s);
    } else {
      AssignHitsTarget6(b, s);
    }
  }

  /** `b'` agrees with `b` on every field except possibly `except`. */
  predicate AgreeExcept(b: Builder, b': Builder, except: Option<Field>) {
    && (except != Some(ConventionsField) ==> b'.conventions == b.conventions)
    && (except != Some(IgnoreFinalsField) ==> b'.ignoreFinals == b.ignoreFinals)
    && (except != Some(StoreNullsField) ==> b'.storeNulls == b.storeNulls)
    && (except != Some(StoreEmptiesField) ==> b'.storeEmpties == b.storeEmpties)
    && (except != Some(CacheClassLookupsField) ==> b'.cacheClassLookups == b.cacheClassLookups)
    && (except != Some(MapSubPackagesField) ==> b'.mapSubPackages == b.mapSubPackages)
    && (except != Some(EnablePolymorphicQueriesField) ==>
          b'.enablePolymorphicQueries == b.enablePolymorphicQueries)
    && (except != Some(FetchReferencesViaAggregationField) ==>
          b'.fetchReferencesViaAggregation == b.fetchReferencesViaAggregation)
    && (except != Some(ClassLoaderField) ==> b'.classLoader == b.classLoader)
    && (except != Some(DateStorageField) ==> b'.dateStorage == b.dateStorage)
    && (except != Some(DiscriminatorKeyField) ==> b'.discriminatorKey == b.discriminatorKey)
    && (except != Some(DiscriminatorField) ==> b'.discriminator == b.discriminator)
    && (except != Some(CollectionNamingField) ==> b'.collectionNaming == b.collectionNaming)
    && (except != Some(PropertyNamingField) ==> b'.propertyNaming == b.propertyNaming)
    && (except != Some(UuidRepresentationField) ==> b'.uuidRepresentation == b.uuidRepresentation)
    && (except != Some(QueryFactoryField) ==> b'.queryFactory == b.queryFactory)
    && (except != Some(PropertyDiscoveryField) ==> b'.propertyDiscovery == b.propertyDiscovery)
  }

  // The frame of each setter. As above, the groups of three exist only to
  // keep each proof obligation small; `AssignAgreesExceptTarget` below
  // states the property for every setter.

  lemma AssignAgreesExceptTarget1(b: Builder, s: Setter)
    requires s.AddConvention? || s.SetCacheClassLookups? || s.SetClassLoader?
    ensures AgreeExcept(b, Assign(b, s), Target(s))
  {
  }

  lemma AssignAgreesExceptTarget2(b: Builder, s: Setter)
    requires s.SetCollectionNaming? || s.SetDateStorage? || s.DisableEmbeddedIndexes?
    ensures AgreeExcept(b, Assign(b, s), Target(s))
  {
  }

  lemma AssignAgreesExceptTarget3(b: Builder, s: Setter)
    requires s.SetDiscriminator? || s.SetDiscriminatorKey? || s.SetEnablePolymorphicQueries?
    ensures AgreeExcept(b, Assign(b, s), Target(s))
  {
  }

  lemma AssignAgreesExceptTarget4(b: Builder, s: Setter)
    requires s.SetFetchReferencesViaAggregation? || s.SetIgnoreFinals? || s.SetMapSubPackages?
    ensures AgreeExcept(b, Assign(b, s), Target(s))
  {
  }

  lemma AssignAgreesExceptTarget5(b: Builder, s: Setter)
    requires s.SetPropertyDiscovery? || s.SetPropertyNaming? || s.SetQueryFactory?
    ensures AgreeExcept(b, Assign(b, s), Target(s))
  {
  }

  lemma AssignAgreesExceptTarget6(b: Builder, s: Setter)
    requires s.SetStoreEmpties? || s.SetStoreNulls? || s.SetUuidRepresentation?
    ensures AgreeExcept(b, Assign(b, s), Target(s))
  {
  }

  /** The assignment a setter makes touches no field but its target. */
  lemma {:induction false} AssignAgreesExceptTarget(b: Builder, s: Setter)
    ensures AgreeExcept(b, Assign(b, s), Target(s))
    decreases s.Depth()
  {
    if s.SetDateForm? {
      AssignAgreesExceptTarget(b, SetDateStorage(s.storage));
    } else if s.SetFieldNaming? {
      AssignAgreesExceptTarget(b, SetPropertyNaming(s.strategy));
    } else if s.UseLowerCaseCollectionNames? {
      if s.on {
        AssignAgreesExceptTarget(b, SetCollectionNaming(LowerCase));
      }
    } else if s.AddConvention? || s.SetCacheClassLookups? || s.SetClassLoader? {
      AssignAgreesExceptTarget1(b, s);
    } else if s.SetCollectionNaming? || s.SetDateStorage? || s.DisableEmbeddedIndexes? {
      AssignAgreesExceptTarget2(b, s);
    } else if s.SetDiscriminator? || s.SetDiscriminatorKey? || s.SetEnablePolymorphicQueries? {
      AssignAgreesExceptTarget3(b, s);
    } else if s.SetFetchReferencesViaAggregation? || s.SetIgnoreFinals? || s.SetMapSubPackages? {
      AssignAgreesExceptTarget4(b, s);
    } else if s.SetPropertyDiscovery? || s.SetPropertyNaming? || s.SetQueryFactory? {
      AssignAgreesExceptTarget5(b, s);
    } else {
      AssignAgreesExceptTarget6(b, s);
    }
  }

  /** Agreement field by field, read through `Get`. */
  lemma AgreeExceptGet(b: Builder, b': Builder, except: Option<Field>, f: Field)
    requires AgreeExcept(b, b', except)
    requires except != Some(f)
    ensures b'.Get(f) == b.Get(f)
  {
  }

  /** The assignment a setter makes leaves every other field alone. */
  lemma AssignKeepsOthers(b: Builder, s: Setter, f: Field)
    requires Target(s) != Some(f)
    ensures Assign(b, s).Get(f) == b.Get(f)
  {
    AssignAgreesExceptTarget(b, s);
    AgreeExceptGet(b, Assign(b, s), Target(s), f);
  }

  /** The assignment a setter makes, on one field. */
  lemma AssignFrame(b: Builder, s: Setter, f: Field)
    ensures Assign(b, s).Get(f) == if Target(s) == Some(f) then Written(b, s) else b.Get(f)
  {
    if Target(s) == Some(f) {
      AssignHitsTarget(b, s);
    } else {
      AssignKeepsOthers(b, s, f);
    }
  }

  /** What a successful setter call does, field by field: its target field
      receives the written value and every other field, and the lock, are
      untouched. */
  lemma SetterFrame(b: Builder, s: Setter)
    requires Apply(b, s).Success?
    ensures Apply(b, s).value.options == b.options
    ensures forall f :: Apply(b, s).value.Get(f) ==
                        if Target(s) == Some(f) then Written(b, s) else b.Get(f)
  {
    forall f
      ensures Apply(b, s).value.Get(f) == if Target(s) == Some(f) then Written(b, s) else b.Get(f)
    {
      AssignFrame(b, s, f);
    }
  }

  /** A setter never fails on an unlocked builder, and after `build()` the
      value it was given is stored in the snapshot's field; for
      `addConvention` that is the appended list, which a non-empty list of
      added conventions keeps as it is. */
  lemma SetThenBuildReadsBack(b: Builder, s: Setter, plugins: seq<Convention>)
    requires !b.Locked()
    requires Target(s).Some?
    ensures Apply(b, s).Success?
    ensures Build(Apply(b, s).value, plugins).1.Get(Target(s).value) == Written(b, s)
  {
    SetterFrame(b, s);
  }

  /** `dateForm` checks the lock and forwards to `dateStorage`. */
  lemma DateFormForwards(b: Builder, d: DateStorage)
    ensures Apply(b, SetDateForm(d)) == Apply(b, SetDateStorage(d))
  {
  }

  /** `fieldNaming` checks the lock and forwards to `propertyNaming`. */
  lemma FieldNamingForwards(b: Builder, n: NamingStrategy)
    ensures Apply(b, SetFieldNaming(n)) == Apply(b, SetPropertyNaming(n))
  {
  }

  /** `useLowerCaseCollectionNames(true)` sets lower-case collection naming;
      with `false` it only checks the lock. */
  lemma LowerCaseCollectionNames(b: Builder)
    ensures Apply(b, UseLowerCaseCollectionNames(true)) == Apply(b, SetCollectionNaming(LowerCase))
    ensures Apply(b, UseLowerCaseCollectionNames(false)) ==
            if b.Locked() then Failure(MapperOptionsLocked) else Success(b)
  {
  }

  /** `disableEmbeddedIndexes` changes nothing but still checks the lock. */
  lemma DisableEmbeddedIndexesOnlyChecksLock(b: Builder, flag: bool)
    ensures Apply(b, DisableEmbeddedIndexes(flag)) ==
            if b.Locked() then Failure(MapperOptionsLocked) else Success(b)
  {
  }

  /** `getFieldNaming()` of a built snapshot returns what `fieldNaming` or
      `propertyNaming` last set. */
  lemma FieldNamingReadsPropertyNaming(b: Builder, n: NamingStrategy, plugins: seq<Convention>)
    requires !b.Locked()
    ensures Apply(b, SetFieldNaming(n)).Success?
    ensures Build(Apply(b, SetFieldNaming(n)).value, plugins).1.FieldNaming() == n
    ensures Build(Apply(b, SetPropertyNaming(n)).value, plugins).1.FieldNaming() == n
  {
    assert Apply(b, SetFieldNaming(n)) == Apply(b, SetPropertyNaming(n));
  }

  /** On a locked builder a run throws exactly when it contains a
      lock-checked setter; if it does not, the snapshot is untouched and
      only `fetchReferencesViaAggregation` can have changed. */
  lemma {:induction false} LockedRun(b: Builder, calls: seq<Call>, plugins: seq<Convention>)
    requires b.Locked()
    ensures Run(b, calls, plugins).Failure? <==> exists i :: 0 <= i < |calls| && Throws(calls[i])
    ensures Run(b, calls, plugins).Success? ==> Run(b, calls, plugins).value.options == b.options
    ensures Run(b, calls, plugins).Success? ==>
              forall f :: f != FetchReferencesViaAggregationField ==>
                Run(b, calls, plugins).value.Get(f) == b.Get(f)
    decreases |calls|
  {
    if calls != [] {
      var rest := calls[1..];
      assert forall i :: 1 <= i < |calls| ==> calls[i] == rest[i - 1];
      match calls[0]
      case SetterCall(s) =>
        if Apply(b, s).Success? {
          var next := Apply(b, s).value;
          SetterFrame(b, s);
          LockedRun(next, rest, plugins);
        }
      case BuildCall =>
        LockedRun(b, rest, plugins);
    }
  }

  /** On an unlocked builder a run throws exactly when a lock-checked
      setter comes somewhere after a `build()`. */
  lemma {:induction false} RunFailsIffSetterAfterBuild(b: Builder, calls: seq<Call>, plugins: seq<Convention>)
    requires !b.Locked()
    ensures Run(b, calls, plugins).Failure? <==>
            exists i, j :: 0 <= i < j < |calls| && calls[i].BuildCall? && Throws(calls[j])
    decreases |calls|
  {
    if calls != [] {
      var rest := calls[1..];
      assert forall i :: 1 <= i < |calls| ==> calls[i] == rest[i - 1];
      match calls[0]
      case SetterCall(s) =>
        RunFailsIffSetterAfterBuild(Apply(b, s).value, rest, plugins);
        if exists i, j :: 0 <= i < j < |calls| && calls[i].BuildCall? && Throws(calls[j]) {
          var i, j :| 0 <= i < j < |calls| && calls[i].BuildCall? && Throws(calls[j]);
          assert rest[i - 1].BuildCall? && Throws(rest[j - 1]);
        }
      case BuildCall =>
        LockedRun(Build(b, plugins).0, rest, plugins);
        if exists j :: 0 <= j < |rest| && Throws(rest[j]) {
          var j :| 0 <= j < |rest| && Throws(rest[j]);
          assert calls[0].BuildCall? && Throws(calls[j + 1]);
        }
    }
  }

  /** Setters before the first `build()` never throw and never lock, and
      whatever follows, the snapshot a run ends with is the one made from
      the builder as it stood at that first `build()`. */
  lemma {:induction false} SnapshotIsFirstBuild(b: Builder, pre: seq<Call>, post: seq<Call>,
                                                plugins: seq<Convention>)
    requires !b.Locked()
    requires forall i :: 0 <= i < |pre| ==> !pre[i].BuildCall?
    ensures Run(b, pre, plugins).Success? && !Run(b, pre, plugins).value.Locked()
    ensures Run(b, pre + [BuildCall] + post, plugins).Success? ==>
              Run(b, pre + [BuildCall] + post, plugins).value.options ==
              Some(Snapshot(Run(b, pre, plugins).value, plugins))
    decreases |pre|
  {
    RunAppend(b, pre, [BuildCall] + post, plugins);
    assert pre + [BuildCall] + post == pre + ([BuildCall] + post);
    if pre == [] {
      var built := Build(b, plugins).0;
      assert ([BuildCall] + post)[1..] == post;
      LockedRun(built, post, plugins);
    } else {
      var s := pre[0].setter;
      SnapshotIsFirstBuild(Apply(b, s).value, pre[1..], post, plugins);
      RunAppend(Apply(b, s).value, pre[1..], [BuildCall] + post, plugins);
      assert pre[1..] + [BuildCall] + post == pre[1..] + ([BuildCall] + post);
    }
  }

  /** One `addConvention` call on an unlocked builder appends and lets the
      rest of the run go on. */
  lemma AddConventionStep(b: Builder, c: Convention, rest: seq<Call>, plugins: seq<Convention>)
    requires !b.Locked()
    ensures Run(b, [SetterCall(AddConvention(c))] + rest, plugins) ==
            Run(b.(conventions := b.conventions + [c]), rest, plugins)
  {
    var calls := [SetterCall(AddConvention(c))] + rest;
    assert calls[0] == SetterCall(AddConvention(c)) && calls[1..] == rest;
    assert Apply(b, AddConvention(c)) == Success(b.(conventions := b.conventions + [c]));
  }

  /** `addConvention` appends, in call order, before `build()`. */
  lemma {:induction false} AddAllAppends(b: Builder, cs: seq<Convention>, plugins: seq<Convention>)
    requires !b.Locked()
    ensures Run(b, AddAll(cs), plugins) == Success(b.(conventions := b.conventions + cs))
    decreases |cs|
  {
    if cs == [] {
      assert b.conventions + cs == b.conventions;
    } else {
      var next := b.(conventions := b.conventions + [cs[0]]);
      assert AddAll(cs) == [SetterCall(AddConvention(cs[0]))] + AddAll(cs[1..]);
      AddConventionStep(b, cs[0], AddAll(cs[1..]), plugins);
      AddAllAppends(next, cs[1..], plugins);
      assert next.conventions + cs[1..] == b.conventions + cs;
      assert next.(conventions := next.conventions + cs[1..]) == b.(conventions := b.conventions + cs);
    }
  }

  /** The convention override is all-or-nothing: after adding one or more
      conventions to a fresh builder, the built list is exactly the added
      ones in order; with none added it is the built-ins and the plugins. */
  lemma AddedConventionsReplaceDefaults(cs: seq<Convention>, plugins: seq<Convention>)
    ensures Run(NewBuilder(), AddAll(cs) + [BuildCall], plugins).Success?
    ensures Run(NewBuilder(), AddAll(cs) + [BuildCall], plugins).value.Locked()
    ensures var o := Run(NewBuilder(), AddAll(cs) + [BuildCall], plugins).value.options.value;
            o.conventions == if cs == [] then BuiltInConventions(Fields) + plugins else cs
  {
    var b := NewBuilder();
    AddAllAppends(b, cs, plugins);
    RunAppend(b, AddAll(cs), [BuildCall], plugins);
    assert b.conventions + cs == cs;
    var built := Build(b.(conventions := cs), plugins).0;
    assert Run(NewBuilder(), AddAll(cs) + [BuildCall], plugins) == Success(built);
  }

  /** `fetchReferencesViaAggregation` is accepted after `build()`, changes
      the builder's field, and leaves the cached snapshot as it was. */
  lemma FetchAfterBuildKeepsSnapshot(b: Builder, on: bool, plugins: seq<Convention>)
    requires b.Locked()
    ensures Apply(b, SetFetchReferencesViaAggregation(on)).Success?
    ensures Apply(b, SetFetchReferencesViaAggregation(on)).value.fetchReferencesViaAggregation == on
    ensures Build(Apply(b, SetFetchReferencesViaAggregation(on)).value, plugins).1 == b.options.value
  {
  }

  /** Building twice returns the same snapshot and the same builder, whatever
      the service loader would find the second time. */
  lemma BuildIsIdempotent(b: Builder, plugins: seq<Convention>, later: seq<Convention>)
    ensures Build(Build(b, plugins).0, later) == Build(b, plugins)
  {
  }

  /** The setter calls of `legacy()` make exactly these assignments. */
  lemma LegacySettersAssign(b: Builder)
    requires !b.Locked()
    ensures LegacySetters(b) == b.(dateStorage := SystemDefault, discriminatorKey := "className",
                                   discriminator := ClassName, collectionNaming := Identity,
                                   propertyNaming := Identity, queryFactory := LegacyQueryFactory)
  {
    var b1 := Assigned(b, SetDateStorage(SystemDefault));
    assert b1 == b.(dateStorage := SystemDefault);
    var b2 := Assigned(b1, SetDiscriminatorKey("className"));
    assert b2 == b1.(discriminatorKey := "className");
    var b3 := Assigned(b2, SetDiscriminator(ClassName));
    assert b3 == b2.(discriminator := ClassName);
    var b4 := Assigned(b3, SetCollectionNaming(Identity));
    assert b4 == b3.(collectionNaming := Identity);
    var b5 := Assigned(b4, SetPropertyNaming(Identity));
    assert b5 == b4.(propertyNaming := Identity);
    var b6 := Assigned(b5, SetQueryFactory(LegacyQueryFactory));
    assert b6 == b5.(queryFactory := LegacyQueryFactory);
  }

  /** `legacy()` is a fresh builder with exactly these assignments. */
  lemma LegacyPreset()
    ensures Legacy() == NewBuilder().(dateStorage := SystemDefault, discriminatorKey := "className",
                                      discriminator := ClassName, collectionNaming := Identity,
                                      propertyNaming := Identity, queryFactory := LegacyQueryFactory)
  {
    LegacySettersAssign(NewBuilder());
  }

  /** The fields the legacy setter chain changes on a builder that holds
      the default values. */
  lemma LegacyChangesOnly(d: Builder)
    requires d.dateStorage == UTC && d.discriminatorKey == "_t" && d.discriminator == SimpleName
    requires d.collectionNaming == CamelCase && d.propertyNaming == Identity
    requires d.queryFactory == DefaultQueryFactory
    ensures var l := d.(dateStorage := SystemDefault, discriminatorKey := "className",
                        discriminator := ClassName, collectionNaming := Identity,
                        propertyNaming := Identity, queryFactory := LegacyQueryFactory);
            forall f :: l.Get(f) != d.Get(f) <==>
                        f in {DateStorageField, DiscriminatorKeyField, DiscriminatorField,
                              CollectionNamingField, QueryFactoryField}
  {
    assert "className" != "_t" by { assert "className"[0] != "_t"[0]; }
  }

  /** The two presets differ in exactly five fields: property naming is set
      to identity by `legacy()`, which it already was. */
  lemma PresetsDiffer()
    ensures !Legacy().Locked() && !NewBuilder().Locked()
    ensures forall f :: Legacy().Get(f) != NewBuilder().Get(f) <==>
                        f in {DateStorageField, DiscriminatorKeyField, DiscriminatorField,
                              CollectionNamingField, QueryFactoryField}
  {
    LegacyPreset();
    LegacyChangesOnly(NewBuilder());
  }

  /** Two snapshots that agree on every field are the same snapshot. */
  lemma OptionsExtensional(o1: MapperOptions, o2: MapperOptions)
    requires forall f :: o1.Get(f) == o2.Get(f)
    ensures o1 == o2
  {
    assert o1.conventions == o2.conventions by {
      assert o1.Get(ConventionsField) == o2.Get(ConventionsField);
    }
    assert o1.ignoreFinals == o2.ignoreFinals by {
      assert o1.Get(IgnoreFinalsField) == o2.Get(IgnoreFinalsField);
    }
    assert o1.storeNulls == o2.storeNulls by {
      assert o1.Get(StoreNullsField) == o2.Get(StoreNullsField);
    }
    assert o1.storeEmpties == o2.storeEmpties by {
      assert o1.Get(StoreEmptiesField) == o2.Get(StoreEmptiesField);
    }
    assert o1.cacheClassLookups == o2.cacheClassLookups by {
      assert o1.Get(CacheClassLookupsField) == o2.Get(CacheClassLookupsField);
    }
    assert o1.mapSubPackages == o2.mapSubPackages by {
      assert o1.Get(MapSubPackagesField) == o2.Get(MapSubPackagesField);
    }
    assert o1.enablePolymorphicQueries == o2.enablePolymorphicQueries by {
      assert o1.Get(EnablePolymorphicQueriesField) == o2.Get(EnablePolymorphicQueriesField);
    }
    assert o1.fetchReferencesViaAggregation == o2.fetchReferencesViaAggregation by {
      assert o1.Get(FetchReferencesViaAggregationField) == o2.Get(FetchReferencesViaAggregationField);
    }
    assert o1.classLoader == o2.classLoader by {
      assert o1.Get(ClassLoaderField) == o2.Get(ClassLoaderField);
    }
    assert o1.dateStorage == o2.dateStorage by {
      assert o1.Get(DateStorageField) == o2.Get(DateStorageField);
    }
    assert o1.discriminatorKey == o2.discriminatorKey by {
      assert o1.Get(DiscriminatorKeyField) == o2.Get(DiscriminatorKeyField);
    }
    assert o1.discriminator == o2.discriminator by {
      assert o1.Get(DiscriminatorField) == o2.Get(DiscriminatorField);
    }
    assert o1.collectionNaming == o2.collectionNaming by {
      assert o1.Get(CollectionNamingField) == o2.Get(CollectionNamingField);
    }
    assert o1.propertyNaming == o2.propertyNaming by {
      assert o1.Get(PropertyNamingField) == o2.Get(PropertyNamingField);
    }
    assert o1.uuidRepresentation == o2.uuidRepresentation by {
      assert o1.Get(UuidRepresentationField) == o2.Get(UuidRepresentationField);
    }
    assert o1.queryFactory == o2.queryFactory by {
      assert o1.Get(QueryFactoryField) == o2.Get(QueryFactoryField);
    }
    assert o1.propertyDiscovery == o2.propertyDiscovery by {
      assert o1.Get(PropertyDiscoveryField) == o2.Get(PropertyDiscoveryField);
    }
  }

  /** Copying a snapshot into a new builder and building again reproduces
      every field but two: the conventions fall back to the built-ins and
      the plugins, and the class loader becomes the one `getClassLoader()`
      gave, the calling thread's context loader when none was set. When
      the original had no added conventions and its own class loader, the
      round trip returns the original exactly. */
  lemma CopyRoundTrip(b: Builder, plugins: seq<Convention>, context: Option<ClassLoaderRef>)
    requires !b.Locked()
    ensures var o := Build(b, plugins).1;
            var o' := Build(FromOptions(o, context), plugins).1;
            && o'.conventions == BuiltInConventions(o.propertyDiscovery) + plugins
            && (forall f :: f != ConventionsField && f != ClassLoaderField ==> o'.Get(f) == o.Get(f))
            && o'.classLoader == EffectiveClassLoader(o, context)
            && (b.conventions == [] && b.classLoader.Some? ==> o' == o)
  {
    var o := Build(b, plugins).1;
    var o' := Build(FromOptions(o, context), plugins).1;
    if b.conventions == [] && b.classLoader.Some? {
      assert o'.Get(ConventionsField) == o.Get(ConventionsField);
      assert o'.Get(ClassLoaderField) == o.Get(ClassLoaderField);
      OptionsExtensional(o', o);
    }
  }
}
