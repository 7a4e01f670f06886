/**
 * The resolved setting and the failures a resolution can end in.
 *
 * A `Configuration` holds the one boolean "use a FIPS endpoint"; it is a value,
 * so two instances with the same boolean are interchangeable.
 */
module Config {
  import opened Wrappers
  import opened Text

  /** Key of the setting in the shared config file and in the serialized form. */
  const SettingKey: string := "use_fips_endpoint"

  datatype Configuration = Configuration(useFipsEndpoint: bool)
  {
    /** Serialized form, `['use_fips_endpoint' => bool]`; the tests compare these. */
    function ToArray(): (m: map<string, bool>)
      ensures m.Keys == {SettingKey}
      ensures m[SettingKey] == useFipsEndpoint
    {
      map[SettingKey := useFipsEndpoint]
    }
  }

  /** Comparing serialized forms, as the tests do, is comparing configurations. */
  lemma ToArrayInjective(a: Configuration, b: Configuration)
    ensures a.ToArray() == b.ToArray() <==> a == b
  {
  }

  /** What kind of configuration failure occurred. */
  datatype ErrorKind =
    | EnvironmentNotFound
    | HomeDirectoryUnresolvable
    | FileNotFound
    | FileMalformed
    | ProfileNotFound
    | KeyNotFound
    | InvalidValue

  datatype Error =
    /** A rejection with a `ConfigurationException`. */
    | ConfigurationError(kind: ErrorKind, message: string)
    /** `InvalidArgumentException`, thrown when a chain is built from nothing. */
    | InvalidArgument(message: string)
    /** Any other exception a caller-supplied resolver raises. */
    | Raised(message: string)

  type Outcome = Result<Configuration, Error>

  /** Whether `r` is a configuration rejection of kind `k`. */
  predicate RejectedAs(r: Outcome, k: ErrorKind)
  {
    r.Failure? && r.error.ConfigurationError? && r.error.kind == k
  }

  const InvalidValueMessage: string := "'use_fips_endpoint' config option must be a boolean value."

  /**
   * Reading of a raw setting value as a boolean, case-insensitively:
   * "true" and "1" are true, "false" and "0" are false, anything else is no boolean.
   */
  function BooleanValue(s: string): (r: Option<bool>)
    ensures r == Some(true) <==> Lower(s) in {"true", "1"}
    ensures r == Some(false) <==> Lower(s) in {"false", "0"}
  {
    var l := Lower(s);
    if l == "true" || l == "1" then Some(true)
    else if l == "false" || l == "0" then Some(false)
    else None
  }

  /** The canonical text of a boolean setting. */
  function Render(b: bool): (s: string)
    ensures |s| > 0
  {
    if b then "true" else "false"
  }

  lemma BooleanValueRoundTrip(b: bool)
    ensures BooleanValue(Render(b)) == Some(b)
  {
  }

  /** Letter case never changes how a value reads. */
  lemma BooleanValueIgnoresCase(s: string)
    ensures BooleanValue(Upper(s)) == BooleanValue(s)
  {
  }

  /** Building a `Configuration` from a raw value, which rejects a non-boolean. */
  function FromValue(s: string): (r: Outcome)
    ensures r.Success? <==> BooleanValue(s).Some?
    ensures r.Success? ==> r.value.useFipsEndpoint == BooleanValue(s).value
    ensures r.Failure? ==> r.error == ConfigurationError(InvalidValue, InvalidValueMessage)
  {
    match BooleanValue(s)
    case Some(b) => Success(Configuration(b))
    case None => Failure(ConfigurationError(InvalidValue, InvalidValueMessage))
  }
}
