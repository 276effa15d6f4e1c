// The options pipeline: configure setups (named ones always, unnamed
// ones behind a name gate that differs between callers), then every
// post-configure, then validation that gathers every failure. The same
// replay of a base type's setups onto a derived options type appears in
// several registration helpers.
//
// An options instance is modelled as a value of type O; a setup maps the
// instance before it to the instance after it.

module OptionsPipeline {
  import opened Common

  /** IConfigureOptions<O>: a named setup (IConfigureNamedOptions) is
    * given the options name; an unnamed one is not. */
  datatype Setup<!O> =
    | NamedSetup(configureNamed: (Option<string>, O) -> O)
    | UnnamedSetup(configure: O -> O)

  /** IPostConfigureOptions<O> */
  type PostSetup<!O> = (Option<string>, O) -> O

  /** What IValidateOptions.Validate returns; null included. */
  datatype ValidateResult = NullResult | Succeeded | Skipped | Failed(failures: seq<string>)

  type Validator<!O> = (Option<string>, O) -> ValidateResult

  /** When unnamed setups run: only for the default name, for the default
    * name or a null name, or always. */
  datatype UnnamedGate = OnlyDefault | DefaultOrNull | Always

  predicate RunsUnnamed(gate: UnnamedGate, name: Option<string>)
  {
    match gate
    case OnlyDefault => name == Some(DefaultName)
    case DefaultOrNull => name == Some(DefaultName) || name.None?
    case Always => true
  }

  function ApplySetup<O>(s: Setup<O>, gate: UnnamedGate, name: Option<string>, o: O): O
  {
    match s
    case NamedSetup(f) => f(name, o)
    case UnnamedSetup(g) => if RunsUnnamed(gate, name) then g(o) else o
  }

  /** The setups applied in registration order. */
  function ApplySetups<O>(setups: seq<Setup<O>>, gate: UnnamedGate, name: Option<string>, o: O): O
    decreases |setups|
  {
    if setups == [] then o
    else ApplySetup(setups[|setups| - 1], gate, name, ApplySetups(setups[..|setups| - 1], gate, name, o))
  }

  /** The post-configures applied in registration order, each with the
    * name. */
  function ApplyPosts<O>(posts: seq<PostSetup<O>>, name: Option<string>, o: O): O
    decreases |posts|
  {
    if posts == [] then o
    else posts[|posts| - 1](name, ApplyPosts(posts[..|posts| - 1], name, o))
  }

  function ResultFailures(r: ValidateResult): seq<string>
  {
    if r.Failed? then r.failures else []
  }

  /** Every validator's failures, in validator order. */
  function Failures<O>(validators: seq<Validator<O>>, name: Option<string>, o: O): seq<string>
    decreases |validators|
  {
    if validators == [] then []
    else Failures(validators[..|validators| - 1], name, o) + ResultFailures(validators[|validators| - 1](name, o))
  }

  /** The instance when there are no failures, else OptionsValidationException
    * carrying name ?? DefaultName and every failure. */
  function Validated<O>(failures: seq<string>, name: Option<string>, o: O): (r: Result<O>)
    ensures r.Ok? <==> failures == []
    ensures r.Ok? ==> r.value == o
    ensures r.Err? ==> r.error == OptionsValidation(NameOrDefault(name), failures)
  {
    if failures == [] then Ok(o) else Err(OptionsValidation(NameOrDefault(name), failures))
  }

  // ---------------------------------------------------------------------
  // The loops.

  /** foreach setup: a named setup is given the name, an unnamed one runs
    * only when the gate lets it. */
  method RunSetups<O>(setups: seq<Setup<O>>, gate: UnnamedGate, name: Option<string>, instance: O) returns (r: O)
    ensures r == ApplySetups(setups, gate, name, instance)
  {
    r := instance;
    for i := 0 to |setups|
      invariant r == ApplySetups(setups[..i], gate, name, instance)
    {
      assert setups[..i + 1][..i] == setups[..i];
      match setups[i] {
        case NamedSetup(f) =>
          r := f(name, r);
        case UnnamedSetup(g) =>
          if RunsUnnamed(gate, name) {
            r := g(r);
          }
      }
    }
    assert setups[..|setups|] == setups;
  }

  method RunPostConfigures<O>(posts: seq<PostSetup<O>>, name: Option<string>, instance: O) returns (r: O)
    ensures r == ApplyPosts(posts, name, instance)
  {
    r := instance;
    for i := 0 to |posts|
      invariant r == ApplyPosts(posts[..i], name, instance)
    {
      assert posts[..i + 1][..i] == posts[..i];
      r := posts[i](name, r);
    }
    assert posts[..|posts|] == posts;
  }

  /** foreach validator: a non-null failed result adds its failures. */
  method CollectFailures<O>(validators: seq<Validator<O>>, name: Option<string>, instance: O) returns (failures: seq<string>)
    ensures failures == Failures(validators, name, instance)
  {
    failures := [];
    for i := 0 to |validators|
      invariant failures == Failures(validators[..i], name, instance)
    {
      assert validators[..i + 1][..i] == validators[..i];
      var result := validators[i](name, instance);
      if result.Failed? {
        failures := failures + result.failures;
      }
    }
    assert validators[..|validators|] == validators;
  }

  // ---------------------------------------------------------------------
  // ConfigurableServiceDescriptor.

  /** What the service provider resolves: the registered setups,
    * post-configures and validators of the options type, and those of its
    * base type. */
  datatype ServiceProvider<!O> = ServiceProvider(
    setups: seq<Setup<O>>,
    posts: seq<PostSetup<O>>,
    validators: seq<Validator<O>>,
    baseSetups: seq<Setup<O>>,
    basePosts: seq<PostSetup<O>>)

  /** The factory delegate Factory returns: it closes over createInstance
    * and the name. */
  datatype ConfiguredFactory<!O> = ConfiguredFactory(createInstance: ServiceProvider<O> -> O, name: Option<string>)

  function Factory<O>(createInstance: Option<ServiceProvider<O> -> O>, name: Option<string>): (r: Result<ConfiguredFactory<O>>)
    ensures createInstance.None? ==> r == Err(ArgumentNull)
    ensures createInstance.Some? ==> r == Ok(ConfiguredFactory(createInstance.value, name))
  {
    if createInstance.None? then Err(ArgumentNull) else Ok(ConfiguredFactory(createInstance.value, name))
  }

  /** CreateConfiguredImplementation: create, configure (unnamed setups only
    * for the default name), post-configure, validate. */
  method CreateConfiguredImplementation<O>(f: ConfiguredFactory<O>, sp: ServiceProvider<O>) returns (r: Result<O>)
    ensures
      var configured := ApplyPosts(sp.posts, f.name, ApplySetups(sp.setups, OnlyDefault, f.name, f.createInstance(sp)));
      r == Validated(Failures(sp.validators, f.name, configured), f.name, configured)
  {
    var instance := f.createInstance(sp);
    instance := RunSetups(sp.setups, OnlyDefault, f.name, instance);
    instance := RunPostConfigures(sp.posts, f.name, instance);
    var failures := CollectFailures(sp.validators, f.name, instance);
    r := if |failures| == 0 then Ok(instance) else Err(OptionsValidation(NameOrDefault(f.name), failures));
  }

  // ---------------------------------------------------------------------
  // MsalCacheHelperFactory.

  class CacheHelperFactory<O> {
    const setups: Option<seq<Setup<O>>>
    const postConfigures: Option<seq<PostSetup<O>>>
    const validations: seq<Validator<O>>

    /** A null validator list becomes an empty one. */
    constructor (setups: Option<seq<Setup<O>>>, postConfigures: Option<seq<PostSetup<O>>>, validations: Option<seq<Validator<O>>>)
      ensures this.setups == setups && this.postConfigures == postConfigures
      ensures this.validations == if validations.Some? then validations.value else []
    {
      this.setups := setups;
      this.postConfigures := postConfigures;
      this.validations := if validations.Some? then validations.value else [];
    }

    /** CreateAsync after the cache helper itself is created: null lists
      * act as empty, unnamed setups run for the default name and for a
      * null name, and validation runs only when there are validators. */
    method CreateAsync(name: Option<string>, created: O) returns (r: Result<O>)
      ensures
        var configured := ApplyPosts(if postConfigures.Some? then postConfigures.value else [], name,
          ApplySetups(if setups.Some? then setups.value else [], DefaultOrNull, name, created));
        r == Validated(Failures(validations, name, configured), name, configured)
    {
      var instance := RunSetups(if setups.Some? then setups.value else [], DefaultOrNull, name, created);
      instance := RunPostConfigures(if postConfigures.Some? then postConfigures.value else [], name, instance);
      if |validations| > 0 {
        var failures := CollectFailures(validations, name, instance);
        if |failures| > 0 {
          return Err(OptionsValidation(NameOrDefault(name), failures));
        }
      }
      r := Ok(instance);
    }
  }

  // ---------------------------------------------------------------------
  // Option classes that forward to a delegate.

  /** ConfigureAllOptions<O>: the delegate receives the name as given, and
    * Configure(o) gives it a null name. */
  datatype ConfigureAllOptions<!O> = ConfigureAllOptions(configureOptions: (Option<string>, O) -> O)
  {
    function ConfigureNamed(name: Option<string>, o: O): O { configureOptions(name, o) }
    function Configure(o: O): O { ConfigureNamed(None, o) }
  }

  /** ConfigureAllOptions<O, TDep>: the captured dependency is the third
    * argument. */
  datatype ConfigureAllOptionsWithDependency<!O, !D> = ConfigureAllOptionsWithDependency(dependency: D, configureOptions: (Option<string>, O, D) -> O)
  {
    function ConfigureNamed(name: Option<string>, o: O): O { configureOptions(name, o, dependency) }
    function Configure(o: O): O { ConfigureNamed(None, o) }
  }

  /** ConfigureAllNamedOptions<O, TDep>: the dependency is the second
    * argument, and Configure(o) gives the delegate the default name. */
  datatype ConfigureAllNamedOptions<!O, !D> = ConfigureAllNamedOptions(dependency: D, configureOptions: (Option<string>, D, O) -> O)
  {
    function ConfigureNamed(name: Option<string>, o: O): O { configureOptions(name, dependency, o) }
    function Configure(o: O): O { ConfigureNamed(Some(DefaultName), o) }
    function AsSetup(): Setup<O> { NamedSetup((name, o) => configureOptions(name, dependency, o)) }
  }

  /** The constructors reject a null delegate. */
  function NewConfigureAllOptions<O>(configureOptions: Option<(Option<string>, O) -> O>): (r: Result<ConfigureAllOptions<O>>)
    ensures configureOptions.None? <==> r.Err?
    ensures r.Err? ==> r.error == ArgumentNull
    ensures r.Ok? ==> r.value.configureOptions == configureOptions.value
  {
    if configureOptions.None? then Err(ArgumentNull) else Ok(ConfigureAllOptions(configureOptions.value))
  }

  function NewConfigureAllOptionsWithDependency<O, D>(dependency: D, configureOptions: Option<(Option<string>, O, D) -> O>): (r: Result<ConfigureAllOptionsWithDependency<O, D>>)
    ensures configureOptions.None? <==> r.Err?
    ensures r.Err? ==> r.error == ArgumentNull
    ensures r.Ok? ==> r.value.configureOptions == configureOptions.value && r.value.dependency == dependency
  {
    if configureOptions.None? then Err(ArgumentNull) else Ok(ConfigureAllOptionsWithDependency(dependency, configureOptions.value))
  }

  function NewConfigureAllNamedOptions<O, D>(dependency: D, configureOptions: Option<(Option<string>, D, O) -> O>): (r: Result<ConfigureAllNamedOptions<O, D>>)
    ensures configureOptions.None? <==> r.Err?
    ensures r.Err? ==> r.error == ArgumentNull
    ensures r.Ok? ==> r.value.configureOptions == configureOptions.value && r.value.dependency == dependency
  {
    if configureOptions.None? then Err(ArgumentNull) else Ok(ConfigureAllNamedOptions(dependency, configureOptions.value))
  }

  /** The two families differ in the name the unnamed Configure forwards:
    * null for ConfigureAllOptions, the default name for
    * ConfigureAllNamedOptions. */
  lemma UnnamedConfigureForwarding<O, D>(a: ConfigureAllOptions<O>, b: ConfigureAllOptionsWithDependency<O, D>, c: ConfigureAllNamedOptions<O, D>, o: O)
    ensures a.Configure(o) == a.configureOptions(None, o)
    ensures b.Configure(o) == b.configureOptions(None, o, b.dependency)
    ensures c.Configure(o) == c.configureOptions(Some(DefaultName), c.dependency, o)
    ensures c.Configure(o) == c.ConfigureNamed(Some(DefaultName), o)
  {
  }

  /** The same delegate wrapped in both families: when it tells a null name
    * from the default name, the unnamed Configure of the two differs. */
  lemma UnnamedForwardingDiffers<O, D>(f: (Option<string>, O) -> O, dependency: D, o: O)
    requires f(None, o) != f(Some(DefaultName), o)
    ensures ConfigureAllOptions(f).Configure(o) != ConfigureAllNamedOptions(dependency, (name, _, x) => f(name, x)).Configure(o)
    ensures ConfigureAllOptions(f).ConfigureNamed(Some(DefaultName), o) == ConfigureAllNamedOptions(dependency, (name, _, x) => f(name, x)).Configure(o)
  {
  }

  // ---------------------------------------------------------------------
  // Replaying a base type's setups onto a derived options type.

  /** ConfigureNamedOptions / PostConfigureOptions bound to a name act for
    * that name only, or for every name when bound to null. */
  predicate NamedOptionsApplies(boundName: Option<string>, name: Option<string>)
  {
    boundName.None? || name == boundName
  }

  /** InheritedConfigureAllOptions: named base setups get the caller's
    * name (null included), unnamed ones always run. */
  method InheritedConfigureAll<O>(sameType: bool, baseSetups: seq<Setup<O>>, name: Option<string>, options: O) returns (r: O)
    ensures sameType ==> r == options
    ensures !sameType ==> r == ApplySetups(baseSetups, Always, name, options)
  {
    if sameType {
      return options;
    }
    r := RunSetups(baseSetups, Always, name, options);
  }

  /** InheritedConfigureAllOptions.Configure(options) is Configure(null,
    * options). */
  method InheritedConfigureAllUnnamed<O>(sameType: bool, baseSetups: seq<Setup<O>>, options: O) returns (r: O)
    ensures sameType ==> r == options
    ensures !sameType ==> r == ApplySetups(baseSetups, Always, None, options)
  {
    r := InheritedConfigureAll(sameType, baseSetups, None, options);
  }

  /** InheritedPostConfigureAllOptions: every base post-configure with the
    * caller's name. */
  method InheritedPostConfigureAll<O>(sameType: bool, basePosts: seq<PostSetup<O>>, name: Option<string>, options: O) returns (r: O)
    ensures sameType ==> r == options
    ensures !sameType ==> r == ApplyPosts(basePosts, name, options)
  {
    if sameType {
      return options;
    }
    r := RunPostConfigures(basePosts, name, options);
  }

  /** InheritedConfigureNamedOptions, created with the base setups the
    * provider resolves: for its bound name it replays them, named ones
    * with the bound name and unnamed ones always. */
  method InheritedConfigureNamed<O>(sameType: bool, sp: ServiceProvider<O>, boundName: Option<string>, name: Option<string>, options: O) returns (r: O)
    ensures !NamedOptionsApplies(boundName, name) || sameType ==> r == options
    ensures NamedOptionsApplies(boundName, name) && !sameType ==> r == ApplySetups(sp.baseSetups, Always, boundName, options)
  {
    if !NamedOptionsApplies(boundName, name) || sameType {
      return options;
    }
    r := RunSetups(sp.baseSetups, Always, boundName, options);
  }

  /** InheritedPostConfigureNamedOptions: for its bound name, every base
    * post-configure with the bound name. */
  method InheritedPostConfigureNamed<O>(sameType: bool, sp: ServiceProvider<O>, boundName: Option<string>, name: Option<string>, options: O) returns (r: O)
    ensures !NamedOptionsApplies(boundName, name) || sameType ==> r == options
    ensures NamedOptionsApplies(boundName, name) && !sameType ==> r == ApplyPosts(sp.basePosts, boundName, options)
  {
    if !NamedOptionsApplies(boundName, name) || sameType {
      return options;
    }
    r := RunPostConfigures(sp.basePosts, boundName, options);
  }

  /** A registration in a service collection: a factory that builds the
    * setup or post-configure from the service provider. */
  datatype Registration<!O> =
    | ConfigureService(createSetup: ServiceProvider<O> -> Setup<O>)
    | PostConfigureService(createPost: ServiceProvider<O> -> PostSetup<O>)

  class ServiceCollection<O> {
    var registrations: seq<Registration<O>>

    constructor ()
      ensures registrations == []
    {
      registrations := [];
    }
  }

  /** ConfigureAllNamed: one singleton registration building a
    * ConfigureAllNamedOptions from the resolved dependency. */
  method ConfigureAllNamed<O, D>(services: Option<ServiceCollection<O>>, resolve: ServiceProvider<O> -> D, configureOptions: (Option<string>, D, O) -> O)
    returns (r: Result<ServiceCollection<O>>)
    modifies if services.Some? then {services.value} else {}
    ensures services.None? ==> r == Err(ArgumentNull)
    ensures services.Some? ==> r == Ok(services.value)
    ensures services.Some? ==> services.value.registrations == old(services.value.registrations) + [ConfigureService(sp => ConfigureAllNamedOptions(resolve(sp), configureOptions).AsSetup())]
  {
    if services.None? {
      return Err(ArgumentNull);
    }
    var s := services.value;
    s.registrations := s.registrations + [ConfigureService(sp => ConfigureAllNamedOptions(resolve(sp), configureOptions).AsSetup())];
    r := Ok(s);
  }

  method PostConfigureAllNamed<O, D>(services: Option<ServiceCollection<O>>, resolve: ServiceProvider<O> -> D, configureOptions: (Option<string>, D, O) -> O)
    returns (r: Result<ServiceCollection<O>>)
    modifies if services.Some? then {services.value} else {}
    ensures services.None? ==> r == Err(ArgumentNull)
    ensures services.Some? ==> r == Ok(services.value)
    ensures services.Some? ==> services.value.registrations == old(services.value.registrations) + [PostConfigureService(sp => (name, o) => configureOptions(name, resolve(sp), o))]
  {
    if services.None? {
      return Err(ArgumentNull);
    }
    var s := services.value;
    s.registrations := s.registrations + [PostConfigureService(sp => (name, o) => configureOptions(name, resolve(sp), o))];
    r := Ok(s);
  }

  /** ConfigureAllInherited: nothing when the types are the same, else one
    * registration of the replay. */
  method ConfigureAllInherited<O>(services: Option<ServiceCollection<O>>, sameType: bool) returns (r: Result<ServiceCollection<O>>)
    modifies if services.Some? then {services.value} else {}
    ensures services.None? ==> r == Err(ArgumentNull)
    ensures services.Some? ==> r == Ok(services.value)
    ensures services.Some? && sameType ==> services.value.registrations == old(services.value.registrations)
    ensures services.Some? && !sameType ==>
      && |services.value.registrations| == |old(services.value.registrations)| + 1
      && services.value.registrations[..|old(services.value.registrations)|] == old(services.value.registrations)
      && var last := services.value.registrations[|old(services.value.registrations)|];
        && last.ConfigureService?
        && forall sp: ServiceProvider<O>, name: Option<string>, o: O ::
          && last.createSetup(sp).NamedSetup?
          && last.createSetup(sp).configureNamed(name, o) == ApplySetups(sp.baseSetups, OnlyDefault, name, o)
  {
    if services.None? {
      return Err(ArgumentNull);
    }
    if sameType {
      return Ok(services.value);
    }
    var replay := (name: Option<string>, baseSetups: seq<Setup<O>>, o: O) => ApplySetups(baseSetups, OnlyDefault, name, o);
    r := ConfigureAllNamed(services, (sp: ServiceProvider<O>) => sp.baseSetups, replay);
    var last := services.value.registrations[|old(services.value.registrations)|];
    forall sp: ServiceProvider<O>
      ensures last.createSetup(sp) == NamedSetup((name, o) => replay(name, sp.baseSetups, o))
    {
      assert last.createSetup(sp) == ConfigureAllNamedOptions(sp.baseSetups, replay).AsSetup();
    }
  }

  method PostConfigureAllInherited<O>(services: Option<ServiceCollection<O>>, sameType: bool) returns (r: Result<ServiceCollection<O>>)
    modifies if services.Some? then {services.value} else {}
    ensures services.None? ==> r == Err(ArgumentNull)
    ensures services.Some? ==> r == Ok(services.value)
    ensures services.Some? && sameType ==> services.value.registrations == old(services.value.registrations)
    ensures services.Some? && !sameType ==>
      && |services.value.registrations| == |old(services.value.registrations)| + 1
      && services.value.registrations[..|old(services.value.registrations)|] == old(services.value.registrations)
      && var last := services.value.registrations[|old(services.value.registrations)|];
        && last.PostConfigureService?
        && forall sp: ServiceProvider<O>, name: Option<string>, o: O ::
          last.createPost(sp)(name, o) == ApplyPosts(sp.basePosts, name, o)
  {
    if services.None? {
      return Err(ArgumentNull);
    }
    if sameType {
      return Ok(services.value);
    }
    var replay := (name: Option<string>, basePosts: seq<PostSetup<O>>, o: O) => ApplyPosts(basePosts, name, o);
    r := PostConfigureAllNamed(services, (sp: ServiceProvider<O>) => sp.basePosts, replay);
  }

  /** OptionsBuilder<O>: a name (never null) and the services it
    * registers into. */
  class OptionsBuilder<O> {
    const name: string
    var registrations: seq<Registration<O>>

    constructor (name: Option<string>)
      ensures this.name == NameOrDefault(name) && registrations == []
    {
      this.name := NameOrDefault(name);
      registrations := [];
    }
  }

  /** UseInheritedConfigure: for the builder's name, replays the base setups
    * with that name, unnamed ones only if it is the default name. */
  function BuilderReplaySetup<O>(builderName: string, sp: ServiceProvider<O>): Setup<O>
  {
    NamedSetup((name, o) => if NamedOptionsApplies(Some(builderName), name) then ApplySetups(sp.baseSetups, OnlyDefault, Some(builderName), o) else o)
  }

  function BuilderReplayPost<O>(builderName: string, sp: ServiceProvider<O>): PostSetup<O>
  {
    (name, o) => if NamedOptionsApplies(Some(builderName), name) then ApplyPosts(sp.basePosts, Some(builderName), o) else o
  }

  method UseInheritedConfigure<O>(optionsBuilder: Option<OptionsBuilder<O>>, sameType: bool) returns (r: Result<OptionsBuilder<O>>)
    modifies if optionsBuilder.Some? then {optionsBuilder.value} else {}
    ensures optionsBuilder.None? ==> r == Err(ArgumentNull)
    ensures optionsBuilder.Some? ==> r == Ok(optionsBuilder.value)
    ensures optionsBuilder.Some? && sameType ==> optionsBuilder.value.registrations == old(optionsBuilder.value.registrations)
    ensures optionsBuilder.Some? && !sameType ==>
      var b := optionsBuilder.value;
      b.registrations == old(b.registrations) + [ConfigureService(sp => BuilderReplaySetup(b.name, sp))]
  {
    if optionsBuilder.None? {
      return Err(ArgumentNull);
    }
    var b := optionsBuilder.value;
    if !sameType {
      b.registrations := b.registrations + [ConfigureService(sp => BuilderReplaySetup(b.name, sp))];
    }
    r := Ok(b);
  }

  method UseInheritedPostConfigure<O>(optionsBuilder: Option<OptionsBuilder<O>>, sameType: bool) returns (r: Result<OptionsBuilder<O>>)
    modifies if optionsBuilder.Some? then {optionsBuilder.value} else {}
    ensures optionsBuilder.None? ==> r == Err(ArgumentNull)
    ensures optionsBuilder.Some? ==> r == Ok(optionsBuilder.value)
    ensures optionsBuilder.Some? && sameType ==> optionsBuilder.value.registrations == old(optionsBuilder.value.registrations)
    ensures optionsBuilder.Some? && !sameType ==>
      var b := optionsBuilder.value;
      b.registrations == old(b.registrations) + [PostConfigureService(sp => BuilderReplayPost(b.name, sp))]
  {
    if optionsBuilder.None? {
      return Err(ArgumentNull);
    }
    var b := optionsBuilder.value;
    if !sameType {
      b.registrations := b.registrations + [PostConfigureService(sp => BuilderReplayPost(b.name, sp))];
    }
    r := Ok(b);
  }

  // ---------------------------------------------------------------------
  // Properties of the pipeline.

  /** Running two lists of setups one after the other is running their
    * concatenation. */
  lemma {:induction false} ApplySetupsAppend<O>(a: seq<Setup<O>>, b: seq<Setup<O>>, gate: UnnamedGate, name: Option<string>, o: O)
    ensures ApplySetups(a + b, gate, name, o) == ApplySetups(b, gate, name, ApplySetups(a, gate, name, o))
    decreases |b|
  {
    if b == [] {
      assert a + b == a;
    } else {
      var b' := b[..|b| - 1];
      assert (a + b)[..|a + b| - 1] == a + b';
      assert (a + b)[|a + b| - 1] == b[|b| - 1];
      ApplySetupsAppend(a, b', gate, name, o);
    }
  }

  lemma {:induction false} ApplyPostsAppend<O>(a: seq<PostSetup<O>>, b: seq<PostSetup<O>>, name: Option<string>, o: O)
    ensures ApplyPosts(a + b, name, o) == ApplyPosts(b, name, ApplyPosts(a, name, o))
    decreases |b|
  {
    if b == [] {
      assert a + b == a;
    } else {
      var b' := b[..|b| - 1];
      assert (a + b)[..|a + b| - 1] == a + b';
      assert (a + b)[|a + b| - 1] == b[|b| - 1];
      ApplyPostsAppend(a, b', name, o);
    }
  }

  /** Only whether the gate lets unnamed setups run for this name matters:
    * two gates that agree on the name configure alike. */
  lemma {:induction false} GatesAgreeingOnNameAgree<O>(setups: seq<Setup<O>>, g1: UnnamedGate, g2: UnnamedGate, name: Option<string>, o: O)
    requires RunsUnnamed(g1, name) == RunsUnnamed(g2, name)
    ensures ApplySetups(setups, g1, name, o) == ApplySetups(setups, g2, name, o)
    decreases |setups|
  {
    if setups != [] {
      GatesAgreeingOnNameAgree(setups[..|setups| - 1], g1, g2, name, o);
    }
  }

  /** The named setups of a list, in order. */
  function NamedOnly<O>(setups: seq<Setup<O>>): (r: seq<Setup<O>>)
    ensures |r| <= |setups|
    ensures forall i :: 0 <= i < |r| ==> r[i].NamedSetup?
    decreases |setups|
  {
    if setups == [] then []
    else if setups[|setups| - 1].NamedSetup? then NamedOnly(setups[..|setups| - 1]) + [setups[|setups| - 1]]
    else NamedOnly(setups[..|setups| - 1])
  }

  /** When the gate shuts out unnamed setups, they are skipped entirely:
    * the result is that of the named setups alone. */
  lemma {:induction false} ClosedGateSkipsUnnamed<O>(setups: seq<Setup<O>>, gate: UnnamedGate, name: Option<string>, o: O)
    requires !RunsUnnamed(gate, name)
    ensures ApplySetups(setups, gate, name, o) == ApplySetups(NamedOnly(setups), gate, name, o)
    decreases |setups|
  {
    if setups != [] {
      var init := setups[..|setups| - 1];
      ClosedGateSkipsUnnamed(init, gate, name, o);
      if setups[|setups| - 1].NamedSetup? {
        var r := NamedOnly(init) + [setups[|setups| - 1]];
        assert r[..|r| - 1] == NamedOnly(init);
      }
    }
  }

  /** For a null name, the service descriptor (unnamed setups only for the
    * default name) skips every unnamed setup, while the cache helper
    * factory (default or null) runs them all; for the default name the two
    * agree. */
  lemma NullNameDescriptorAndCacheFactoryDiffer<O>(setups: seq<Setup<O>>, o: O)
    ensures ApplySetups(setups, OnlyDefault, None, o) == ApplySetups(NamedOnly(setups), Always, None, o)
    ensures ApplySetups(setups, DefaultOrNull, None, o) == ApplySetups(setups, Always, None, o)
    ensures ApplySetups(setups, OnlyDefault, Some(DefaultName), o) == ApplySetups(setups, DefaultOrNull, Some(DefaultName), o)
  {
    ClosedGateSkipsUnnamed(setups, OnlyDefault, None, o);
    NamedOnlyIgnoresGate(NamedOnly(setups), OnlyDefault, Always, None, o);
    GatesAgreeingOnNameAgree(setups, DefaultOrNull, Always, None, o);
    GatesAgreeingOnNameAgree(setups, OnlyDefault, DefaultOrNull, Some(DefaultName), o);
  }

  /** A list of named setups only does not depend on the gate. */
  lemma {:induction false} NamedOnlyIgnoresGate<O>(setups: seq<Setup<O>>, g1: UnnamedGate, g2: UnnamedGate, name: Option<string>, o: O)
    requires forall i :: 0 <= i < |setups| ==> setups[i].NamedSetup?
    ensures ApplySetups(setups, g1, name, o) == ApplySetups(setups, g2, name, o)
    decreases |setups|
  {
    if setups != [] {
      NamedOnlyIgnoresGate(setups[..|setups| - 1], g1, g2, name, o);
    }
  }

  /** Failures of two validator lists are those of each in turn. */
  lemma {:induction false} FailuresAppend<O>(a: seq<Validator<O>>, b: seq<Validator<O>>, name: Option<string>, o: O)
    ensures Failures(a + b, name, o) == Failures(a, name, o) + Failures(b, name, o)
    decreases |b|
  {
    if b == [] {
      assert a + b == a;
    } else {
      var b' := b[..|b| - 1];
      assert (a + b)[..|a + b| - 1] == a + b';
      assert (a + b)[|a + b| - 1] == b[|b| - 1];
      FailuresAppend(a, b', name, o);
    }
  }

  /** Validation passes exactly when no validator reports a failed result
    * with failures; a null, succeeded or skipped result contributes none. */
  lemma {:induction false} FailuresEmptyIff<O>(validators: seq<Validator<O>>, name: Option<string>, o: O)
    ensures Failures(validators, name, o) == [] <==> forall i :: 0 <= i < |validators| ==> ResultFailures(validators[i](name, o)) == []
    decreases |validators|
  {
    if validators != [] {
      var init := validators[..|validators| - 1];
      FailuresEmptyIff(init, name, o);
      assert forall i :: 0 <= i < |init| ==> init[i] == validators[i];
    }
  }

  /** The replay UseInheritedConfigure registers: for the builder's own
    * name it runs the base setups with that name (unnamed ones only when it
    * is the default name); for any other name it leaves the instance
    * alone. */
  lemma BuilderReplayActsForItsName<O>(builderName: string, sp: ServiceProvider<O>, gate: UnnamedGate, name: Option<string>, o: O)
    ensures name == Some(builderName) ==>
      ApplySetup(BuilderReplaySetup(builderName, sp), gate, name, o) == ApplySetups(sp.baseSetups, OnlyDefault, name, o)
    ensures name != Some(builderName) ==> ApplySetup(BuilderReplaySetup(builderName, sp), gate, name, o) == o
    ensures name == Some(builderName) ==>
      BuilderReplayPost(builderName, sp)(name, o) == ApplyPosts(sp.basePosts, name, o)
    ensures name != Some(builderName) ==> BuilderReplayPost(builderName, sp)(name, o) == o
  {
  }
}
