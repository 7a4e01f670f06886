/**
 * The shared-config-file behaviours the resolver is held to, stated for any home
 * directory and any environment that leaves the relevant variables unset.
 */
module IniCases {
  import opened Wrappers
  import opened Text
  import opened Config
  import opened Sources

  /**
   * `[custom] use_fips_endpoint = true`, `[default] use_fips_endpoint = false`, as the
   * ini scanner returns it: true becomes "1" and false becomes "".
   */
  const MainIni: IniFile :=
    map["custom" := map[SettingKey := "1"], "default" := map[SettingKey := ""]]

  /** The same two profiles with the values swapped. */
  const AltIni: IniFile :=
    map["custom" := map[SettingKey := ""], "default" := map[SettingKey := "1"]]

  /** The environment the file tests start from: a home directory, no config-file or profile override. */
  predicate PlainEnv(w: World, home: string)
  {
    GetEnv(w.env, "HOME") == home && Truthy(home)
    && GetEnv(w.env, EnvConfigFile) == "" && GetEnv(w.env, EnvProfile) == ""
  }

  /** Without a profile override the "default" profile is read. */
  lemma ReadsDefaultProfile(w: World, home: string)
    requires PlainEnv(w, home)
    requires HomeConfigFile(home) in w.files && w.files[HomeConfigFile(home)] == Some(MainIni)
    ensures Ini(None, None, w) == Success(Configuration(false))
  {
  }

  /** `AWS_PROFILE=custom` selects the "custom" profile. */
  lemma ReadsProfileFromEnvironment(w: World, home: string)
    requires GetEnv(w.env, "HOME") == home && Truthy(home) && GetEnv(w.env, EnvConfigFile) == ""
    requires GetEnv(w.env, EnvProfile) == "custom"
    requires HomeConfigFile(home) in w.files && w.files[HomeConfigFile(home)] == Some(MainIni)
    ensures Ini(None, None, w) == Success(Configuration(true))
  {
  }

  /** `AWS_CONFIG_FILE` takes precedence over `<home>/.aws/config`. */
  lemma ReadsFileFromEnvironment(w: World, home: string, alt: string)
    requires GetEnv(w.env, "HOME") == home && Truthy(home) && GetEnv(w.env, EnvProfile) == ""
    requires GetEnv(w.env, EnvConfigFile) == alt && Truthy(alt)
    requires HomeConfigFile(home) in w.files && w.files[HomeConfigFile(home)] == Some(MainIni)
    requires alt in w.files && w.files[alt] == Some(AltIni)
    ensures Ini(None, None, w) == Success(Configuration(true))
  {
  }

  /** A config file that does not exist is a rejection. */
  lemma RejectsMissingFile(w: World, home: string)
    requires PlainEnv(w, home) && HomeConfigFile(home) !in w.files
    ensures Ini(None, None, w).Failure? && Ini(None, None, w).error.kind == FileNotFound
  {
  }

  /** A profile section without `use_fips_endpoint` is a rejection, not a default of false. */
  lemma RejectsProfileWithoutKey(w: World, home: string)
    requires PlainEnv(w, home)
    requires HomeConfigFile(home) in w.files && w.files[HomeConfigFile(home)] == Some(map["custom" := map[]])
    ensures Ini(Some("custom"), None, w).Failure? && Ini(Some("custom"), None, w).error.kind == KeyNotFound
  {
  }

  /** An empty file holds no profile; the rejection names the profile that was sought. */
  lemma RejectsEmptyFile(w: World, home: string)
    requires PlainEnv(w, home)
    requires HomeConfigFile(home) in w.files && w.files[HomeConfigFile(home)] == Some(map[])
    ensures Ini(Some("foo"), None, w).Failure? && Ini(Some("foo"), None, w).error.kind == ProfileNotFound
    ensures Contains(Ini(Some("foo"), None, w).error.message, "'foo' not found in")
  {
    var m := "'" + "foo" + "' not found in config file";
    assert StartsWith(m, "'foo' not found in");
  }

  /** A file the parser refuses is a rejection that says the file is invalid. */
  lemma RejectsMalformedFile(w: World, home: string)
    requires PlainEnv(w, home)
    requires HomeConfigFile(home) in w.files && w.files[HomeConfigFile(home)].None?
    ensures Ini(None, None, w).Failure? && Ini(None, None, w).error.kind == FileMalformed
    ensures StartsWith(Ini(None, None, w).error.message, "Invalid config file:")
  {
  }
}

/**
 * The examples the provider is held to that combine the chain or the default
 * provider with the example config files.
 */
module ProviderCases {
  import opened Wrappers
  import opened Text
  import opened Config
  import opened Sources
  import opened Chain
  import opened Default
  import IniCases

  /**
   * The chaining example: `ini('custom')` then `ini()` then a link that must never
   * run, over the main ini file. The first link settles the chain with true and is
   * the only one invoked.
   */
  method ChainsConfiguration(w: World, home: string, never: Source) returns (r: Outcome, invoked: seq<nat>)
    requires IniCases.PlainEnv(w, home)
    requires HomeConfigFile(home) in w.files && w.files[HomeConfigFile(home)] == Some(IniCases.MainIni)
    ensures r == Success(Configuration(true))
    ensures invoked == [0]
  {
    var links := MakeChain([IniSource(Some("custom"), None), IniSource(None, None), never]).value;
    assert Resolve(links[0], w) == Success(Configuration(true));
    r, invoked := RunChain(links, w);
  }

  /**
   * The environment wins over the file: `AWS_USE_FIPS_ENDPOINT=false` with
   * `AWS_PROFILE=custom` selecting a profile that says true still yields false.
   */
  lemma SelectsEnvironmentOverIni(w: World, home: string)
    requires EnvUseFipsEndpoint in w.env && w.env[EnvUseFipsEndpoint] == "false"
    requires GetEnv(w.env, "HOME") == home && Truthy(home) && GetEnv(w.env, EnvConfigFile) == ""
    requires GetEnv(w.env, EnvProfile) == "custom"
    requires HomeConfigFile(home) in w.files && w.files[HomeConfigFile(home)] == Some(IniCases.MainIni)
    ensures Ini(None, None, w) == Success(Configuration(true))
    ensures DefaultResolve(RegionOnly("us-east-1"), w) == Success(Configuration(false))
  {
  }
  /** With the file enabled and `AWS_CONFIG_FILE` naming the alternative file, its true is read. */
  lemma UsesIniWithUseAwsConfigFileTrue(w: World, home: string, alt: string)
    requires GetEnv(w.env, EnvUseFipsEndpoint) == ""
    requires GetEnv(w.env, "HOME") == home && Truthy(home) && GetEnv(w.env, EnvProfile) == ""
    requires GetEnv(w.env, EnvConfigFile) == alt && Truthy(alt)
    requires alt in w.files && w.files[alt] == Some(IniCases.AltIni)
    ensures DefaultResolve(RegionOnly("us-east-1"), w) == Success(Configuration(true))
  {
    DefaultPrecedence(RegionOnly("us-east-1"), w);
  }
}
