/**
 * The three leaf resolvers (environment variable, shared config file, region
 * fallback) and the home-directory and file-location helpers they use.
 *
 * The process environment and the filesystem are inputs: an environment is a
 * map from variable name to value (a variable set to "" reads like an unset one),
 * and a filesystem maps each readable path to its parsed contents, `None` when
 * the file is not valid ini syntax.
 */
module Sources {
  import opened Wrappers
  import opened Text
  import opened Config

  const EnvUseFipsEndpoint: string := "AWS_USE_FIPS_ENDPOINT"
  const EnvProfile: string := "AWS_PROFILE"
  const EnvConfigFile: string := "AWS_CONFIG_FILE"
  const DefaultProfile: string := "default"

  /** A parsed ini file: profile name to the profile's key/value pairs. */
  type IniFile = map<string, map<string, string>>

  datatype World = World(env: map<string, string>, files: map<string, Option<IniFile>>)

  /** `getenv`, with an unset variable read as the empty string. */
  function GetEnv(env: map<string, string>, name: string): (v: string)
    ensures name !in env ==> v == ""
  {
    if name in env then env[name] else ""
  }

  /** PHP truthiness of a string: everything but "" and "0". */
  predicate Truthy(s: string)
  {
    s != "" && s != "0"
  }

  /**
   * The user's home directory: `HOME` if set, otherwise `HOMEDRIVE` followed by
   * `HOMEPATH` when both are set, otherwise none.
   */
  function HomeDir(env: map<string, string>): (r: Option<string>)
    ensures r.Some? ==> Truthy(r.value)
    ensures r.None? <==>
      !Truthy(GetEnv(env, "HOME")) && !(Truthy(GetEnv(env, "HOMEDRIVE")) && Truthy(GetEnv(env, "HOMEPATH")))
    ensures Truthy(GetEnv(env, "HOME")) ==> r == Some(GetEnv(env, "HOME"))
  {
    var home := GetEnv(env, "HOME");
    if Truthy(home) then Some(home)
    else
      var drive, path := GetEnv(env, "HOMEDRIVE"), GetEnv(env, "HOMEPATH");
      if Truthy(drive) && Truthy(path) then Some(drive + path) else None
  }

  /** With `HOME` empty, the home directory is the drive joined to the path. */
  lemma HomeDirFromDriveAndPath(env: map<string, string>)
    requires !Truthy(GetEnv(env, "HOME"))
    requires Truthy(GetEnv(env, "HOMEDRIVE")) && Truthy(GetEnv(env, "HOMEPATH"))
    ensures HomeDir(env) == Some(GetEnv(env, "HOMEDRIVE") + GetEnv(env, "HOMEPATH"))
  {
  }

  /** The Windows example: `HOME=`, `HOMEDRIVE=C:`, `HOMEPATH=\My\Home` gives `C:\My\Home`. */
  lemma HomeDirForWindowsUsers(env: map<string, string>)
    requires "HOME" in env && env["HOME"] == ""
    requires "HOMEDRIVE" in env && env["HOMEDRIVE"] == "C:"
    requires "HOMEPATH" in env && env["HOMEPATH"] == "\\My\\Home"
    ensures HomeDir(env) == Some("C:\\My\\Home")
  {
    HomeDirFromDriveAndPath(env);
    assert "C:" + "\\My\\Home" == "C:\\My\\Home";
  }

  /** `<home>/.aws/config`, the shared config file's default location. */
  function HomeConfigFile(home: string): (path: string)
  {
    home + "/.aws/config"
  }

  /**
   * Where the shared config file is read from: the explicit file name, else
   * `AWS_CONFIG_FILE`, else `<home>/.aws/config`.
   */
  function ConfigFilePath(filename: Option<string>, env: map<string, string>): (r: Result<string, Error>)
    ensures r.Failure? <==>
      !(filename.Some? && Truthy(filename.value)) && !Truthy(GetEnv(env, EnvConfigFile)) && HomeDir(env).None?
    ensures r.Failure? ==> r.error.ConfigurationError? && r.error.kind == HomeDirectoryUnresolvable
    ensures filename.Some? && Truthy(filename.value) ==> r == Success(filename.value)
    ensures !(filename.Some? && Truthy(filename.value)) && Truthy(GetEnv(env, EnvConfigFile)) ==>
      r == Success(GetEnv(env, EnvConfigFile))
    ensures !(filename.Some? && Truthy(filename.value)) && !Truthy(GetEnv(env, EnvConfigFile)) && HomeDir(env).Some? ==>
      r == Success(HomeConfigFile(HomeDir(env).value))
  {
    if filename.Some? && Truthy(filename.value) then Success(filename.value)
    else if Truthy(GetEnv(env, EnvConfigFile)) then Success(GetEnv(env, EnvConfigFile))
    else match HomeDir(env)
      case Some(home) => Success(HomeConfigFile(home))
      case None => Failure(ConfigurationError(HomeDirectoryUnresolvable, "Could not determine the home directory"))
  }

  /** The profile read: the explicit name, else `AWS_PROFILE`, else "default". */
  function ProfileName(profile: Option<string>, env: map<string, string>): (p: string)
    ensures Truthy(p)
    ensures profile.Some? && Truthy(profile.value) ==> p == profile.value
    ensures !(profile.Some? && Truthy(profile.value)) && Truthy(GetEnv(env, EnvProfile)) ==> p == GetEnv(env, EnvProfile)
    ensures !(profile.Some? && Truthy(profile.value)) && !Truthy(GetEnv(env, EnvProfile)) ==> p == DefaultProfile
  {
    if profile.Some? && Truthy(profile.value) then profile.value
    else if Truthy(GetEnv(env, EnvProfile)) then GetEnv(env, EnvProfile)
    else DefaultProfile
  }

  /** The environment resolver: `AWS_USE_FIPS_ENDPOINT` if set, read as a boolean. */
  function Env(env: map<string, string>): (r: Outcome)
    ensures GetEnv(env, EnvUseFipsEndpoint) == "" ==> r.Failure? && r.error.ConfigurationError? && r.error.kind == EnvironmentNotFound
    ensures GetEnv(env, EnvUseFipsEndpoint) != "" ==> r == FromValue(GetEnv(env, EnvUseFipsEndpoint))
  {
    var v := GetEnv(env, EnvUseFipsEndpoint);
    if v == "" then
      Failure(ConfigurationError(EnvironmentNotFound,
        "Could not find environment variable config in " + EnvUseFipsEndpoint))
    else FromValue(v)
  }

  /** A set variable yields exactly the boolean it spells, in any letter case. */
  lemma EnvReadsBoolean(env: map<string, string>, b: bool)
    requires EnvUseFipsEndpoint in env && Lower(env[EnvUseFipsEndpoint]) == Render(b)
    ensures Env(env) == Success(Configuration(b))
  {
  }

  /** With the variable unset or empty the resolver rejects, saying what it looked for. */
  lemma EnvRejectsWhenUnset(env: map<string, string>)
    requires GetEnv(env, EnvUseFipsEndpoint) == ""
    ensures Env(env).Failure?
    ensures StartsWith(Env(env).error.message, "Could not find environment variable config")
  {
  }

  /** How a profile's stored value reads; the ini scanner renders false-like values as "". */
  function IniValue(s: string): (r: Option<bool>)
    ensures s == "" ==> r == Some(false)
    ensures s != "" ==> r == BooleanValue(s)
  {
    if s == "" then Some(false) else BooleanValue(s)
  }

  /**
   * Reading the setting from profile `profile` of the file at `path`: a success
   * exactly when the file exists, parses, holds the profile, and the profile holds
   * a value of `use_fips_endpoint` that reads as a boolean, which it then yields.
   * Each other case is a rejection of its own kind.
   */
  function IniRead(path: string, profile: string, files: map<string, Option<IniFile>>): (r: Outcome)
    ensures path !in files ==> RejectedAs(r, FileNotFound)
    ensures path in files && files[path].None? ==>
      RejectedAs(r, FileMalformed) && StartsWith(r.error.message, "Invalid config file:")
    ensures path in files && files[path].Some? && profile !in files[path].value ==>
      RejectedAs(r, ProfileNotFound)
    ensures (path in files && files[path].Some? && profile in files[path].value
             && SettingKey !in files[path].value[profile]) ==> RejectedAs(r, KeyNotFound)
    ensures r.Success? <==>
      && path in files && files[path].Some? && profile in files[path].value
      && SettingKey in files[path].value[profile]
      && IniValue(files[path].value[profile][SettingKey]).Some?
    ensures r.Success? ==> r.value.useFipsEndpoint == IniValue(files[path].value[profile][SettingKey]).value
  {
    if path !in files then
      Failure(ConfigurationError(FileNotFound, "Cannot read configuration from " + path))
    else match files[path]
      case None =>
        Failure(ConfigurationError(FileMalformed, "Invalid config file: " + path))
      case Some(data) =>
        if profile !in data then
          Failure(ConfigurationError(ProfileNotFound, "'" + profile + "' not found in config file"))
        else if SettingKey !in data[profile] then
          Failure(ConfigurationError(KeyNotFound,
            "Required use fips endpoint config values not present in INI profile '" + profile + "' (" + path + ")"))
        else match IniValue(data[profile][SettingKey])
          case Some(b) => Success(Configuration(b))
          case None => Failure(ConfigurationError(InvalidValue, InvalidValueMessage))
  }

  /**
   * The shared-config-file resolver `ini($profile, $filename)`: the file and profile
   * are chosen as described above; it rejects when no file can be located, and
   * otherwise succeeds exactly when the chosen file exists, parses, holds the chosen
   * profile, and that profile holds a boolean `use_fips_endpoint`, yielding that
   * boolean. Every other case is a rejection of the matching kind.
   */
  function Ini(profile: Option<string>, filename: Option<string>, w: World): (r: Outcome)
    ensures ConfigFilePath(filename, w.env).Failure? ==>
      RejectedAs(r, HomeDirectoryUnresolvable)
    ensures ConfigFilePath(filename, w.env).Success? ==>
      var path, p := ConfigFilePath(filename, w.env).value, ProfileName(profile, w.env);
      && (path !in w.files ==> RejectedAs(r, FileNotFound))
      && (path in w.files && w.files[path].None? ==> RejectedAs(r, FileMalformed))
      && (path in w.files && w.files[path].Some? && p !in w.files[path].value ==>
            RejectedAs(r, ProfileNotFound))
      && ((path in w.files && w.files[path].Some? && p in w.files[path].value
           && SettingKey !in w.files[path].value[p]) ==> RejectedAs(r, KeyNotFound))
      && (r.Success? <==>
            path in w.files && w.files[path].Some? && p in w.files[path].value
            && SettingKey in w.files[path].value[p]
            && IniValue(w.files[path].value[p][SettingKey]).Some?)
      && (r.Success? ==> r.value.useFipsEndpoint == IniValue(w.files[path].value[p][SettingKey]).value)
  {
    match ConfigFilePath(filename, w.env)
    case Failure(e) => Failure(e)
    case Success(path) => IniRead(path, ProfileName(profile, w.env), w.files)
  }

  /** The region fallback: a FIPS pseudo-region ("fips-..." or "...-fips") means true. */
  function Fallback(region: string): (r: Outcome)
    ensures r.Success?
  {
    Success(Configuration(Contains(region, "fips-") || Contains(region, "-fips")))
  }

  /** The fallback says true exactly when "fips-" or "-fips" occurs somewhere in the region. */
  lemma FallbackIffFipsInRegion(region: string)
    ensures Fallback(region).value.useFipsEndpoint <==>
      (exists i :: OccursAt(region, "fips-", i)) || (exists i :: OccursAt(region, "-fips", i))
  {
    ContainsIffOccurs(region, "fips-");
    ContainsIffOccurs(region, "-fips");
  }

  lemma FallbackFipsRegion()
    ensures Fallback("fips-us-east-1") == Success(Configuration(true))
  {
  }

  lemma FallbackStandardRegion()
    ensures Fallback("us-east-1") == Success(Configuration(false))
  {
    assert 'f' !in "us-east-1";
    MissingCharNotContained("us-east-1", "fips-", 0);
    MissingCharNotContained("us-east-1", "-fips", 1);
  }
}

