/**
 * `defaultProvider`: the composed resolver the client uses. Its chain is an
 * explicit value if one was given, then the environment variable, then the shared
 * config file (unless `use_aws_shared_config_files` is false), then the region
 * fallback; a cache handle wraps that chain in the cache, and the whole is memoized.
 */
module Default {
  import opened Wrappers
  import opened Text
  import opened Config
  import opened Sources
  import opened Chain
  import opened Providers

  /** The `use_fips_endpoint` entry of the configuration bag. */
  datatype FipsSetting = Unset | Override(value: bool) | CacheHandle(cache: Cache)

  /** The configuration bag `defaultProvider` is given. */
  datatype Bag = Bag(
    region: string,
    useFipsEndpoint: FipsSetting,
    profile: Option<string>,
    filename: Option<string>,
    useSharedConfigFiles: bool)

  /** The bag the examples pass: a region and nothing else, so the file is consulted. */
  function RegionOnly(region: string): (bag: Bag)
  {
    Bag(region, Unset, None, None, true)
  }

  /** The links of the default chain, in order. */
  function DefaultLinks(bag: Bag): (links: seq<Source>)
    ensures links != [] && links[|links| - 1] == FallbackSource(bag.region)
    ensures bag.useFipsEndpoint.Override? <==> links[0].Constant?
    ensures (exists i :: 0 <= i < |links| && links[i].IniSource?) <==> bag.useSharedConfigFiles
  {
    var explicit := if bag.useFipsEndpoint.Override? then [Constant(Configuration(bag.useFipsEndpoint.value))] else [];
    var file := if bag.useSharedConfigFiles then [IniSource(bag.profile, bag.filename)] else [];
    var links := explicit + [EnvSource] + file + [FallbackSource(bag.region)];
    assert bag.useSharedConfigFiles ==> links[|explicit| + 1].IniSource?;
    links
  }

  /**
   * What the default chain settles on, before any caching. It always settles on a
   * value: if every earlier link fails, the region fallback, which never fails, decides.
   */
  function DefaultResolve(bag: Bag, w: World): (r: Outcome)
    ensures r.Success?
  {
    ChainResolve(DefaultLinks(bag), w)
  }

  /**
   * The precedence the default chain implements, stated without the chain: an
   * explicit value, else a valid environment variable, else (when enabled) a
   * successful read of the shared config file, else the region fallback.
   */
  lemma DefaultPrecedence(bag: Bag, w: World)
    ensures DefaultResolve(bag, w) ==
      if bag.useFipsEndpoint.Override? then Success(Configuration(bag.useFipsEndpoint.value))
      else if Env(w.env).Success? then Env(w.env)
      else if bag.useSharedConfigFiles && Ini(bag.profile, bag.filename, w).Success? then Ini(bag.profile, bag.filename, w)
      else Fallback(bag.region)
  {
    var links := DefaultLinks(bag);
    if !bag.useFipsEndpoint.Override? && Env(w.env).Failure? {
      var fallback := [FallbackSource(bag.region)];
      if bag.useSharedConfigFiles {
        assert links == [EnvSource, IniSource(bag.profile, bag.filename), FallbackSource(bag.region)];
        assert links[1..] == [IniSource(bag.profile, bag.filename)] + fallback;
        assert links[1..][1..] == fallback;
        assert ChainResolve(links, w) == ChainResolve(links[1..], w);
        assert ChainResolve(links[1..][1..], w) == Fallback(bag.region);
      } else {
        assert links == [EnvSource] + fallback;
        assert links[1..] == fallback;
        assert ChainResolve(links[1..], w) == Fallback(bag.region);
      }
    }
  }


  /** An environment variable spelling a boolean decides the setting, whatever the files say. */
  lemma DefaultFromEnvironment(bag: Bag, w: World, b: bool)
    requires !bag.useFipsEndpoint.Override?
    requires EnvUseFipsEndpoint in w.env && Lower(w.env[EnvUseFipsEndpoint]) == Render(b)
    ensures DefaultResolve(bag, w) == Success(Configuration(b))
  {
  }

  /** `AWS_USE_FIPS_ENDPOINT=true` with region us-east-1 yields true. */
  lemma CreatesFromEnvironmentVariables(w: World)
    requires EnvUseFipsEndpoint in w.env && w.env[EnvUseFipsEndpoint] == "true"
    ensures DefaultResolve(RegionOnly("us-east-1"), w) == Success(Configuration(true))
  {
    DefaultFromEnvironment(RegionOnly("us-east-1"), w, true);
  }

  /** With no environment and no usable file, the region decides. */
  lemma DefaultFromRegion(bag: Bag, w: World)
    requires !bag.useFipsEndpoint.Override? && GetEnv(w.env, EnvUseFipsEndpoint) == ""
    requires bag.useSharedConfigFiles ==> Ini(bag.profile, bag.filename, w).Failure?
    ensures DefaultResolve(bag, w) == Fallback(bag.region)
  {
    DefaultPrecedence(bag, w);
  }

  /** A FIPS pseudo-region yields true when nothing else is configured. */
  lemma CreatesFromFipsRegion(w: World)
    requires GetEnv(w.env, EnvUseFipsEndpoint) == ""
    requires Ini(None, None, w).Failure?
    ensures DefaultResolve(RegionOnly("fips-us-east-1"), w) == Success(Configuration(true))
  {
    DefaultFromRegion(RegionOnly("fips-us-east-1"), w);
    FallbackFipsRegion();
  }

  /** A standard region yields the class default, false, when nothing else is configured. */
  lemma UsesClassDefault(w: World)
    requires GetEnv(w.env, EnvUseFipsEndpoint) == ""
    requires Ini(None, None, w).Failure?
    ensures DefaultResolve(RegionOnly("us-east-1"), w) == Success(Configuration(false))
  {
    DefaultFromRegion(RegionOnly("us-east-1"), w);
    FallbackStandardRegion();
  }


  /** With `use_aws_shared_config_files` false no file can influence the result. */
  lemma IgnoresIniWhenSharedConfigDisabled(bag: Bag, env: map<string, string>, files1: map<string, Option<IniFile>>, files2: map<string, Option<IniFile>>)
    requires !bag.useSharedConfigFiles
    ensures DefaultResolve(bag, World(env, files1)) == DefaultResolve(bag, World(env, files2))
  {
    DefaultPrecedence(bag, World(env, files1));
    DefaultPrecedence(bag, World(env, files2));
  }

  /**
   * The example: with shared config files disabled and no environment value,
   * region us-east-1 yields false. (The example's file also says false for the
   * default profile, so it alone cannot tell an ignored file from a read one;
   * `IgnoresIniWhenSharedConfigDisabled` does.)
   */
  lemma IgnoresIniWithUseAwsConfigFileFalse(w: World)
    requires GetEnv(w.env, EnvUseFipsEndpoint) == ""
    ensures DefaultResolve(Bag("us-east-1", Unset, None, None, false), w) == Success(Configuration(false))
  {
    DefaultFromRegion(Bag("us-east-1", Unset, None, None, false), w);
    FallbackStandardRegion();
  }


  /**
   * Assembling the default provider: the chain above, behind the cache when the bag
   * carries a cache handle, behind a fresh memoizer. Nothing is resolved yet.
   */
  method DefaultProvider(bag: Bag, w: World) returns (p: Memoized)
    ensures fresh(p) && fresh(p.inner) && fresh(p.inner.inner)
    ensures p.inner.inner.behaviour == Chained(DefaultLinks(bag), w)
    ensures p.inner.cache == if bag.useFipsEndpoint.CacheHandle? then bag.useFipsEndpoint.cache else null
    ensures p.Valid() && p.slot == None && p.inner.inner.calls == 0
  {
    var links := MakeChain(DefaultLinks(bag)).value;
    var chain := new Provider(Chained(links, w));
    var cache: Cache? := if bag.useFipsEndpoint.CacheHandle? then bag.useFipsEndpoint.cache else null;
    var cached := new CachedProvider(chain, cache);
    p := new Memoized(cached);
  }

  /**
   * Invoking a default provider without a cache handle twice: both invocations yield
   * what the default chain settles on, and the chain runs once.
   */
  method InvokeDefaultTwice(bag: Bag, w: World) returns (first: Outcome, second: Outcome, chainRuns: nat)
    requires !bag.useFipsEndpoint.CacheHandle?
    ensures first == DefaultResolve(bag, w) && second == first
    ensures chainRuns == 1
  {
    var p := DefaultProvider(bag, w);
    first := p.Invoke();
    second := p.Invoke();
    chainRuns := p.inner.inner.calls;
  }

  /**
   * The cache example: a cache already holding `expected` under the key, passed as
   * the bag's `use_fips_endpoint`. The provider yields `expected` and never runs the chain.
   */
  method CreatesFromCache(expected: Configuration, w: World) returns (r: Outcome, chainRuns: nat)
    ensures r == Success(expected)
    ensures chainRuns == 0
  {
    var cache := new Cache();
    cache.Set(CacheKey, expected);
    var p := DefaultProvider(Bag("us-east-1", CacheHandle(cache), None, None, true), w);
    r := p.Invoke();
    chainRuns := p.inner.inner.calls;
  }
}
