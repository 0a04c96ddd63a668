/** Mapping options and their builder (MapperOptions.java).

    The Java builder is a mutable object whose setters return `this` and
    throw once `build()` has produced a snapshot. Here the builder is an
    immutable record: a setter returns the next builder or the exception,
    and `build()` returns the next builder together with the snapshot. The
    lock is the cached snapshot itself (`options`). */
module Mapping {
  import opened Wrappers

  // Opaque collaborators. Their implementations are not part of this model;
  // they are told apart only by which factory produced them.

  datatype DateStorage = UTC | SystemDefault

  datatype NamingStrategy = Identity | CamelCase | LowerCase | CustomNaming(id: nat)

  datatype DiscriminatorFunction = SimpleName | ClassName | CustomDiscriminator(id: nat)

  /** org.bson.UuidRepresentation. */
  datatype UuidRepresentation = Unspecified | Standard | CSharpLegacy | JavaLegacy | PythonLegacy

  datatype QueryFactory = DefaultQueryFactory | LegacyQueryFactory | CustomQueryFactory(id: nat)

  datatype PropertyDiscovery = Fields | Methods

  datatype ClassLoaderRef = ClassLoaderRef(id: nat)

  /** A MorphiaConvention: the three built-in ones, or any other class
      (service-loaded or added by the user). */
  datatype Convention =
    | MorphiaDefaultsConvention
    | FieldDiscovery
    | MethodDiscovery
    | ConfigureProperties
    | CustomConvention(id: nat)

  /** The only exception of this file: `Sofia.mapperOptionsLocked()`. */
  datatype MappingError = MapperOptionsLocked

  /** Names of the option fields shared by the builder and the snapshot. */
  datatype Field =
    | ConventionsField
    | IgnoreFinalsField
    | StoreNullsField
    | StoreEmptiesField
    | CacheClassLookupsField
    | MapSubPackagesField
    | EnablePolymorphicQueriesField
    | FetchReferencesViaAggregationField
    | ClassLoaderField
    | DateStorageField
    | DiscriminatorKeyField
    | DiscriminatorField
    | CollectionNamingField
    | PropertyNamingField
    | UuidRepresentationField
    | QueryFactoryField
    | PropertyDiscoveryField

  /** The value held by one option field. */
  datatype FieldValue =
    | FlagValue(on: bool)
    | ConventionsValue(list: seq<Convention>)
    | ClassLoaderValue(loader: Option<ClassLoaderRef>)
    | DateStorageValue(storage: DateStorage)
    | KeyValue(key: string)
    | DiscriminatorValue(fn: DiscriminatorFunction)
    | NamingValue(strategy: NamingStrategy)
    | UuidValue(representation: UuidRepresentation)
    | QueryFactoryValue(factory: QueryFactory)
    | DiscoveryValue(mode: PropertyDiscovery)

  /** The immutable snapshot produced by `build()`. */
  datatype MapperOptions = MapperOptions(
    ignoreFinals: bool,
    storeNulls: bool,
    storeEmpties: bool,
    cacheClassLookups: bool,
    mapSubPackages: bool,
    dateStorage: DateStorage,
    discriminatorKey: string,
    discriminator: DiscriminatorFunction,
    conventions: seq<Convention>,
    collectionNaming: NamingStrategy,
    propertyDiscovery: PropertyDiscovery,
    propertyNaming: NamingStrategy,
    uuidRepresentation: UuidRepresentation,
    queryFactory: QueryFactory,
    enablePolymorphicQueries: bool,
    fetchReferencesViaAggregation: bool,
    classLoader: Option<ClassLoaderRef>)
  {
    /** The deprecated getter, forwarding to `getPropertyNaming()`. */
    function FieldNaming(): NamingStrategy {
      propertyNaming
    }

    /** Reads one stored field by name. This is what the getters return,
        except `getClassLoader()` on a null loader (`EffectiveClassLoader`). */
    function Get(f: Field): FieldValue {
      match f
      case ConventionsField => ConventionsValue(conventions)
      case IgnoreFinalsField => FlagValue(ignoreFinals)
      case StoreNullsField => FlagValue(storeNulls)
      case StoreEmptiesField => FlagValue(storeEmpties)
      case CacheClassLookupsField => FlagValue(cacheClassLookups)
      case MapSubPackagesField => FlagValue(mapSubPackages)
      case EnablePolymorphicQueriesField => FlagValue(enablePolymorphicQueries)
      case FetchReferencesViaAggregationField => FlagValue(fetchReferencesViaAggregation)
      case ClassLoaderField => ClassLoaderValue(classLoader)
      case DateStorageField => DateStorageValue(dateStorage)
      case DiscriminatorKeyField => KeyValue(discriminatorKey)
      case DiscriminatorField => DiscriminatorValue(discriminator)
      case CollectionNamingField => NamingValue(collectionNaming)
      case PropertyNamingField => NamingValue(propertyNaming)
      case UuidRepresentationField => UuidValue(uuidRepresentation)
      case QueryFactoryField => QueryFactoryValue(queryFactory)
      case PropertyDiscoveryField => DiscoveryValue(propertyDiscovery)
    }
  }

  /** The staging builder. `conventions` holds only the conventions added
      with `addConvention`; `options` is the cached snapshot, and the
      builder is locked exactly when it is present. */
  datatype Builder = Builder(
    conventions: seq<Convention>,
    ignoreFinals: bool,
    storeNulls: bool,
    storeEmpties: bool,
    cacheClassLookups: bool,
    mapSubPackages: bool,
    enablePolymorphicQueries: bool,
    fetchReferencesViaAggregation: bool,
    classLoader: Option<ClassLoaderRef>,
    dateStorage: DateStorage,
    discriminatorKey: string,
    discriminator: DiscriminatorFunction,
    collectionNaming: NamingStrategy,
    propertyNaming: NamingStrategy,
    uuidRepresentation: UuidRepresentation,
    queryFactory: QueryFactory,
    propertyDiscovery: PropertyDiscovery,
    options: Option<MapperOptions>)
  {
    predicate Locked() {
      options.Some?
    }

    /** The builder's fields as an options record, with the added
        conventions as they stand. */
    function Staged(): MapperOptions {
      MapperOptions(
        ignoreFinals := ignoreFinals,
        storeNulls := storeNulls,
        storeEmpties := storeEmpties,
        cacheClassLookups := cacheClassLookups,
        mapSubPackages := mapSubPackages,
        dateStorage := dateStorage,
        discriminatorKey := discriminatorKey,
        discriminator := discriminator,
        conventions := conventions,
        collectionNaming := collectionNaming,
        propertyDiscovery := propertyDiscovery,
        propertyNaming := propertyNaming,
        uuidRepresentation := uuidRepresentation,
        queryFactory := queryFactory,
        enablePolymorphicQueries := enablePolymorphicQueries,
        fetchReferencesViaAggregation := fetchReferencesViaAggregation,
        classLoader := classLoader)
    }

    /** Reads one field by name. */
    function Get(f: Field): FieldValue {
      Staged().Get(f)
    }
  }

  /** One call of a builder setter, with its argument. */
  datatype Setter =
    | AddConvention(convention: Convention)
    | SetCacheClassLookups(on: bool)
    | SetClassLoader(loader: Option<ClassLoaderRef>)
    | SetCollectionNaming(strategy: NamingStrategy)
    | SetDateForm(storage: DateStorage)
    | SetDateStorage(storage: DateStorage)
    | DisableEmbeddedIndexes(on: bool)
    | SetDiscriminator(fn: DiscriminatorFunction)
    | SetDiscriminatorKey(key: string)
    | SetEnablePolymorphicQueries(on: bool)
    | SetFetchReferencesViaAggregation(on: bool)
    | SetFieldNaming(strategy: NamingStrategy)
    | SetIgnoreFinals(on: bool)
    | SetMapSubPackages(on: bool)
    | SetPropertyDiscovery(discovery: PropertyDiscovery)
    | SetPropertyNaming(strategy: NamingStrategy)
    | SetQueryFactory(factory: QueryFactory)
    | SetStoreEmpties(on: bool)
    | SetStoreNulls(on: bool)
    | UseLowerCaseCollectionNames(on: bool)
    | SetUuidRepresentation(representation: UuidRepresentation)
  {
    /** Every setter but `fetchReferencesViaAggregation` calls `assertNotLocked`. */
    predicate LockChecked() {
      !SetFetchReferencesViaAggregation?
    }

    /** `dateForm`, `fieldNaming` and `useLowerCaseCollectionNames` delegate
        to another setter. */
    function Depth(): nat {
      if SetDateForm? || SetFieldNaming? || UseLowerCaseCollectionNames? then 1 else 0
    }
  }

  /** `new Builder()`: the field initialisers. */
  function NewBuilder(): Builder {
    Builder(
      conventions := [],
      ignoreFinals := false,
      storeNulls := false,
      storeEmpties := false,
      cacheClassLookups := false,
      mapSubPackages := false,
      enablePolymorphicQueries := false,
      fetchReferencesViaAggregation := false,
      classLoader := None,
      dateStorage := UTC,
      discriminatorKey := "_t",
      discriminator := SimpleName,
      collectionNaming := CamelCase,
      propertyNaming := Identity,
      uuidRepresentation := Standard,
      queryFactory := DefaultQueryFactory,
      propertyDiscovery := Fields,
      options := None)
  }

  /** Calls one setter. A lock-checked setter on a locked builder throws;
      otherwise the builder continues with the assignment made. The
      deprecated setters check the lock and then call the setter they
      forward to, which checks it again on the same builder. */
  function Apply(b: Builder, s: Setter): (r: Result<Builder, MappingError>)
    ensures r.Failure? <==> b.Locked() && s.LockChecked()
    ensures r.Success? ==> r.value.options == b.options
  {
    if s.LockChecked() && b.Locked() then Failure(MapperOptionsLocked) else Success(Assign(b, s))
  }

  /** The assignment a setter makes once past the lock check. */
  function Assign(b: Builder, s: Setter): (r: Builder)
    decreases s.Depth()
    ensures r.options == b.options
  {
    match s
    case AddConvention(c) => b.(conventions := b.conventions + [c])
    case SetCacheClassLookups(on) => b.(cacheClassLookups := on)
    case SetClassLoader(loader) => b.(classLoader := loader)
    case SetCollectionNaming(strategy) => b.(collectionNaming := strategy)
    case SetDateForm(storage) => Assign(b, SetDateStorage(storage))
    case SetDateStorage(storage) => b.(dateStorage := storage)
    case DisableEmbeddedIndexes(_) => b
    case SetDiscriminator(fn) => b.(discriminator := fn)
    case SetDiscriminatorKey(key) => b.(discriminatorKey := key)
    case SetEnablePolymorphicQueries(on) => b.(enablePolymorphicQueries := on)
    case SetFetchReferencesViaAggregation(on) => b.(fetchReferencesViaAggregation := on)
    case SetFieldNaming(strategy) => Assign(b, SetPropertyNaming(strategy))
    case SetIgnoreFinals(on) => b.(ignoreFinals := on)
    case SetMapSubPackages(on) => b.(mapSubPackages := on)
    case SetPropertyDiscovery(discovery) => b.(propertyDiscovery := discovery)
    case SetPropertyNaming(strategy) => b.(propertyNaming := strategy)
    case SetQueryFactory(factory) => b.(queryFactory := factory)
    case SetStoreEmpties(on) => b.(storeEmpties := on)
    case SetStoreNulls(on) => b.(storeNulls := on)
    case UseLowerCaseCollectionNames(on) =>
      if on then Assign(b, SetCollectionNaming(LowerCase)) else b
    case SetUuidRepresentation(representation) => b.(uuidRepresentation := representation)
  }

  /** Which field a setter assigns, if any. */
  function Target(s: Setter): Option<Field> {
    match s
    case AddConvention(_) => Some(ConventionsField)
    case SetCacheClassLookups(_) => Some(CacheClassLookupsField)
    case SetClassLoader(_) => Some(ClassLoaderField)
    case SetCollectionNaming(_) => Some(CollectionNamingField)
    case SetDateForm(_) => Some(DateStorageField)
    case SetDateStorage(_) => Some(DateStorageField)
    case DisableEmbeddedIndexes(_) => None
    case SetDiscriminator(_) => Some(DiscriminatorField)
    case SetDiscriminatorKey(_) => Some(DiscriminatorKeyField)
    case SetEnablePolymorphicQueries(_) => Some(EnablePolymorphicQueriesField)
    case SetFetchReferencesViaAggregation(_) => Some(FetchReferencesViaAggregationField)
    case SetFieldNaming(_) => Some(PropertyNamingField)
    case SetIgnoreFinals(_) => Some(IgnoreFinalsField)
    case SetMapSubPackages(_) => Some(MapSubPackagesField)
    case SetPropertyDiscovery(_) => Some(PropertyDiscoveryField)
    case SetPropertyNaming(_) => Some(PropertyNamingField)
    case SetQueryFactory(_) => Some(QueryFactoryField)
    case SetStoreEmpties(_) => Some(StoreEmptiesField)
    case SetStoreNulls(_) => Some(StoreNullsField)
    case UseLowerCaseCollectionNames(on) => if on then Some(CollectionNamingField) else None
    case SetUuidRepresentation(_) => Some(UuidRepresentationField)
  }

  /** The value a setter leaves in its target field of builder `b`. */
  function Written(b: Builder, s: Setter): FieldValue
    requires Target(s).Some?
  {
    match s
    case AddConvention(c) => ConventionsValue(b.conventions + [c])
    case SetCacheClassLookups(on) => FlagValue(on)
    case SetClassLoader(loader) => ClassLoaderValue(loader)
    case SetCollectionNaming(strategy) => NamingValue(strategy)
    case SetDateForm(storage) => DateStorageValue(storage)
    case SetDateStorage(storage) => DateStorageValue(storage)
    case SetDiscriminator(fn) => DiscriminatorValue(fn)
    case SetDiscriminatorKey(key) => KeyValue(key)
    case SetEnablePolymorphicQueries(on) => FlagValue(on)
    case SetFetchReferencesViaAggregation(on) => FlagValue(on)
    case SetFieldNaming(strategy) => NamingValue(strategy)
    case SetIgnoreFinals(on) => FlagValue(on)
    case SetMapSubPackages(on) => FlagValue(on)
    case SetPropertyDiscovery(discovery) => DiscoveryValue(discovery)
    case SetPropertyNaming(strategy) => NamingValue(strategy)
    case SetQueryFactory(factory) => QueryFactoryValue(factory)
    case SetStoreEmpties(on) => FlagValue(on)
    case SetStoreNulls(on) => FlagValue(on)
    case UseLowerCaseCollectionNames(_) => NamingValue(LowerCase)
    case SetUuidRepresentation(representation) => UuidValue(representation)
  }

  /** The built-in conventions, the middle one chosen by the discovery mode. */
  function BuiltInConventions(discovery: PropertyDiscovery): seq<Convention> {
    [MorphiaDefaultsConvention,
     if discovery == Fields then FieldDiscovery else MethodDiscovery,
     ConfigureProperties]
  }

  /** The private `conventions()` of the builder: the added conventions if
      there are any, otherwise the built-ins followed by `plugins`, the
      conventions the service loader finds, in load order. */
  function ResolveConventions(added: seq<Convention>, discovery: PropertyDiscovery,
                              plugins: seq<Convention>): (r: seq<Convention>)
    ensures |added| > 0 ==> r == added
    ensures |added| == 0 ==> |r| == 3 + |plugins|
    ensures |added| == 0 ==> r[0] == MorphiaDefaultsConvention && r[2] == ConfigureProperties
    ensures |added| == 0 ==> (r[1] == FieldDiscovery <==> discovery == Fields)
    ensures |added| == 0 ==> (r[1] == MethodDiscovery <==> discovery == Methods)
    ensures |added| == 0 ==> forall i :: 0 <= i < |plugins| ==> r[3 + i] == plugins[i]
  {
    if |added| == 0 then BuiltInConventions(discovery) + plugins else added
  }

  /** The private constructor `MapperOptions(Builder)`. */
  function Snapshot(b: Builder, plugins: seq<Convention>): (o: MapperOptions)
    ensures forall f :: f != ConventionsField ==> o.Get(f) == b.Get(f)
    ensures o.conventions == ResolveConventions(b.conventions, b.propertyDiscovery, plugins)
  {
    MapperOptions(
      ignoreFinals := b.ignoreFinals,
      storeNulls := b.storeNulls,
      storeEmpties := b.storeEmpties,
      cacheClassLookups := b.cacheClassLookups,
      mapSubPackages := b.mapSubPackages,
      dateStorage := b.dateStorage,
      discriminatorKey := b.discriminatorKey,
      discriminator := b.discriminator,
      conventions := ResolveConventions(b.conventions, b.propertyDiscovery, plugins),
      collectionNaming := b.collectionNaming,
      propertyDiscovery := b.propertyDiscovery,
      propertyNaming := b.propertyNaming,
      uuidRepresentation := b.uuidRepresentation,
      queryFactory := b.queryFactory,
      enablePolymorphicQueries := b.enablePolymorphicQueries,
      fetchReferencesViaAggregation := b.fetchReferencesViaAggregation,
      classLoader := b.classLoader)
  }

  /** `build()`: returns the builder afterwards and the snapshot. The first
      call creates and caches the snapshot (consulting the service loader's
      `plugins`); later calls return the cached one and change nothing. */
  function Build(b: Builder, plugins: seq<Convention>): (r: (Builder, MapperOptions))
    ensures r.0.Locked() && r.0.options.value == r.1
    ensures b.Locked() ==> r == (b, b.options.value)
    ensures !b.Locked() ==> r.0 == b.(options := Some(r.1))
    ensures !b.Locked() ==> forall f :: f != ConventionsField ==> r.1.Get(f) == b.Get(f)
    ensures !b.Locked() ==> r.1.conventions == ResolveConventions(b.conventions, b.propertyDiscovery, plugins)
  {
    match b.options
    case Some(o) => (b, o)
    case None =>
      var o := Snapshot(b, plugins);
      (b.(options := Some(o)), o)
  }

  /** `MapperOptions.DEFAULT`: a fresh builder, built. */
  function DefaultOptions(plugins: seq<Convention>): (o: MapperOptions)
    ensures o.conventions == [MorphiaDefaultsConvention, FieldDiscovery, ConfigureProperties] + plugins
    ensures o.dateStorage == UTC && o.discriminatorKey == "_t" && o.discriminator == SimpleName
    ensures o.collectionNaming == CamelCase && o.propertyNaming == Identity
    ensures o.uuidRepresentation == Standard && o.queryFactory == DefaultQueryFactory
    ensures o.classLoader == None
    ensures !o.ignoreFinals && !o.storeNulls && !o.storeEmpties && !o.cacheClassLookups
    ensures !o.mapSubPackages && !o.enablePolymorphicQueries && !o.fetchReferencesViaAggregation
    ensures o.propertyDiscovery == Fields
  {
    Build(NewBuilder(), plugins).1
  }

  /** `legacy()`: a fresh builder passed through six setters. */
  function Legacy(): Builder {
    LegacySetters(NewBuilder())
  }

  /** The six setter calls of `legacy()`, on an unlocked builder. */
  function LegacySetters(b0: Builder): Builder
    requires !b0.Locked()
  {
    var b1 := Assigned(b0, SetDateStorage(SystemDefault));
    var b2 := Assigned(b1, SetDiscriminatorKey("className"));
    var b3 := Assigned(b2, SetDiscriminator(ClassName));
    var b4 := Assigned(b3, SetCollectionNaming(Identity));
    var b5 := Assigned(b4, SetPropertyNaming(Identity));
    Assigned(b5, SetQueryFactory(LegacyQueryFactory))
  }

  /** A setter call on a builder that is still unlocked, which cannot throw. */
  function Assigned(b: Builder, s: Setter): (r: Builder)
    requires !b.Locked()
    ensures !r.Locked()
    ensures Apply(b, s) == Success(r)
  {
    Apply(b, s).value
  }

  /** `getClassLoader()` on a snapshot: its own loader, or else the calling
      thread's context loader `context`. */
  function EffectiveClassLoader(o: MapperOptions, context: Option<ClassLoaderRef>): Option<ClassLoaderRef> {
    if o.classLoader.Some? then o.classLoader else context
  }

  /** The copy constructor `Builder(MapperOptions)`: an unlocked builder
      with every field of `original` except the conventions, which start
      empty, and the class loader, which goes through `getClassLoader()`. */
  function FromOptions(original: MapperOptions, context: Option<ClassLoaderRef>): (b: Builder)
    ensures !b.Locked()
    ensures b.conventions == []
    ensures b.classLoader == EffectiveClassLoader(original, context)
    ensures forall f :: f != ConventionsField && f != ClassLoaderField ==> b.Get(f) == original.Get(f)
  {
    NewBuilder().(
      cacheClassLookups := original.cacheClassLookups,
      classLoader := EffectiveClassLoader(original, context),
      dateStorage := original.dateStorage,
      ignoreFinals := original.ignoreFinals,
      mapSubPackages := original.mapSubPackages,
      storeEmpties := original.storeEmpties,
      storeNulls := original.storeNulls,
      enablePolymorphicQueries := original.enablePolymorphicQueries,
      fetchReferencesViaAggregation := original.fetchReferencesViaAggregation,
      discriminatorKey := original.discriminatorKey,
      discriminator := original.discriminator,
      collectionNaming := original.collectionNaming,
      propertyNaming := original.propertyNaming,
      uuidRepresentation := original.uuidRepresentation,
      queryFactory := original.queryFactory,
      propertyDiscovery := original.propertyDiscovery)
  }
}
