# FIPS-endpoint configuration provider, modelled in Dafny

This project models how the AWS SDK for PHP resolves the "use FIPS endpoint"
setting (`Aws\Endpoint\UseFipsEndpoint\ConfigurationProvider`), as its PHPUnit
test `tests/Endpoint/UseFipsEndpoint/ConfigurationProviderTest.php` exercises it.
The setting is one boolean, resolved through layered resolvers:

- `env()` reads `AWS_USE_FIPS_ENDPOINT`;
- `ini($profile, $filename)` reads `use_fips_endpoint` from a profile of the shared config file;
- `fallback($region)` infers the value from the region name;
- `chain(...)` tries resolvers in order and settles on the first success;
- `cache($provider, $cache)` stores a success under one fixed cache key;
- `memoize($provider)` runs its resolver once and keeps the outcome;
- `defaultProvider($config)` puts these together.

The process environment and the filesystem are inputs (`Sources.World`):
- the environment is a `map<string, string>`; an unset variable reads as "";
- the filesystem maps each readable path to its parsed ini contents, or to `None` when the parser rejects the file.

Deferred (promise) results are plain `Result` values. The value and the error
types live in `Config`.

Modules:
- `Wrappers`: `Option` and `Result`.
- `Text`: prefix and substring search, and ASCII case mapping.
- `Config`: the `Configuration` value and the reading of booleans.
- `Sources`: the leaf resolvers, the home-directory helper and the file/profile selection.
- `Chain`: links, building a chain, and running one (a loop that stops at the first success).
- `Providers`: the stateful parts as classes:
  - `Provider`, a callable that counts how many times it really ran;
  - `Cache`, the external cache's get/set contract;
  - `CachedProvider`;
  - `Memoized`.
- `Default`: the configuration bag, the default chain and its precedence, and the assembled provider.
- `IniCases` and `ProviderCases` (in `cases.dfy`): the test's examples that use its config-file
  fixtures, for the file resolver alone and for the chain and the default provider.

The provider classes' code is not reproduced here. The constants are the SDK's:
- the variable names `AWS_USE_FIPS_ENDPOINT`, `AWS_PROFILE` and `AWS_CONFIG_FILE`;
- the cache key `aws_cached_use_fips_endpoint_config`.

Of the rejection messages, the test fixes one prefix, "Could not find environment
variable config" (line 99), and two substrings, "'foo' not found in" (line 212)
and "Invalid config file:" (line 228). The rest of each message, and every other
message, is the model's own wording.

Which values count as "not set":
- for `HOME`, `HOMEDRIVE`, `HOMEPATH`, `AWS_PROFILE`, `AWS_CONFIG_FILE` and an explicit
  profile or file name, both "" and "0" count as not set (PHP's falsy strings, `Sources.Truthy`);
- for `AWS_USE_FIPS_ENDPOINT`, only "" counts as not set; "0" is a set value that reads as false.
The test decides neither "0" case.

Two behaviours are fixed by the test:
- A profile section without `use_fips_endpoint` is a rejection, not `false` (test lines 193-207).
- An environment variable set to the empty string counts as unset. The test's `clearEnv` (lines 44-57) depends on this.

Where the test is silent, the model makes its own choices:
- a value that does not read as a boolean is rejected (`Config.FromValue`), and in the default chain
  such an environment value falls through to the next link (`Default.DefaultPrecedence`);
- a missing home directory with no file named is a `HomeDirectoryUnresolvable` rejection (`Sources.ConfigFilePath`);
- an explicit `use_fips_endpoint` value in the bag is the first link of the default chain (`Default.DefaultLinks`);
- a failed resolution is memoized like a successful one (`Providers.Memoized.Invoke`).

## Model

| member | source | states |
|---|---|---|
| Config.ToArrayInjective | tests/Endpoint/UseFipsEndpoint/ConfigurationProviderTest.php:74-77 | comparing `toArray()` forms, as most of the test's assertions do, is exactly comparing configurations |
| Config.BooleanValueRoundTrip | tests/Endpoint/UseFipsEndpoint/ConfigurationProviderTest.php:73-77 | the text "true"/"false" reads back as the boolean it spells |
| Config.BooleanValueIgnoresCase | tests/Endpoint/UseFipsEndpoint/ConfigurationProviderTest.php:73 | a value reads the same whatever its letter case |
| Config.BooleanValue | tests/Endpoint/UseFipsEndpoint/ConfigurationProviderTest.php:73-77 | a value reads as true exactly when it is "true" or "1" in any letter case, as false exactly when it is "false" or "0" in any letter case, and otherwise not at all |
| Config.FromValue | tests/Endpoint/UseFipsEndpoint/ConfigurationProviderTest.php:74 | a configuration is built exactly from a value that reads as a boolean, and holds that boolean; any other value is rejected as invalid |
| Sources.HomeDir | tests/Endpoint/UseFipsEndpoint/ConfigurationProviderTest.php:253-262 | the home directory is `HOME` when set; it is missing exactly when neither `HOME` nor both `HOMEDRIVE` and `HOMEPATH` are set; it is never empty |
| Sources.HomeDirFromDriveAndPath | tests/Endpoint/UseFipsEndpoint/ConfigurationProviderTest.php:253-262 | with `HOME` empty, the home directory is `HOMEDRIVE` followed by `HOMEPATH` |
| Sources.HomeDirForWindowsUsers | tests/Endpoint/UseFipsEndpoint/ConfigurationProviderTest.php:255-261 | `HOME=`, `HOMEDRIVE=C:`, `HOMEPATH=\My\Home` give `C:\My\Home` |
| Sources.ConfigFilePath | tests/Endpoint/UseFipsEndpoint/ConfigurationProviderTest.php:157-170 | an explicit file name wins, then `AWS_CONFIG_FILE`, then `<home>/.aws/config`; resolution fails exactly when none of these is available |
| Sources.ProfileName | tests/Endpoint/UseFipsEndpoint/ConfigurationProviderTest.php:145-183 | an explicit profile wins, then `AWS_PROFILE`, else "default"; the chosen name is never empty |
| Sources.Env | tests/Endpoint/UseFipsEndpoint/ConfigurationProviderTest.php:89-105 | an unset variable is a not-found rejection; a set one is read as a boolean |
| Sources.EnvReadsBoolean | tests/Endpoint/UseFipsEndpoint/ConfigurationProviderTest.php:70-78 | a variable spelling true or false in any case yields that boolean |
| Sources.EnvRejectsWhenUnset | tests/Endpoint/UseFipsEndpoint/ConfigurationProviderTest.php:89-105 | with the variable unset, `env()` rejects with a message starting "Could not find environment variable config" |
| Sources.IniValue | tests/Endpoint/UseFipsEndpoint/ConfigurationProviderTest.php:20-32 | a stored value reads as a boolean; the empty value the ini scanner gives for false reads as false |
| Sources.IniRead | tests/Endpoint/UseFipsEndpoint/ConfigurationProviderTest.php:185-239 | reading a profile of a file succeeds exactly when the file exists, parses, has the profile, and the profile has a `use_fips_endpoint` that reads as a boolean, and then yields that boolean; a missing file, a malformed file (message starting "Invalid config file:"), a missing profile and a missing key each reject with their own kind |
| Sources.Ini | tests/Endpoint/UseFipsEndpoint/ConfigurationProviderTest.php:145-239 | `ini()` rejects as home-directory-unresolvable when no file can be located; otherwise, for the file and profile it selects, it succeeds exactly when that file exists, parses, has that profile, and the profile has a boolean `use_fips_endpoint`, and then yields it; each other case rejects with its own kind |
| Sources.Fallback | tests/Endpoint/UseFipsEndpoint/ConfigurationProviderTest.php:107-114 | the region fallback never rejects |
| Sources.FallbackIffFipsInRegion | tests/Endpoint/UseFipsEndpoint/ConfigurationProviderTest.php:80-114 | the fallback yields true exactly when "fips-" or "-fips" occurs at some position of the region |
| Sources.FallbackFipsRegion | tests/Endpoint/UseFipsEndpoint/ConfigurationProviderTest.php:80-87 | region `fips-us-east-1` gives true |
| Sources.FallbackStandardRegion | tests/Endpoint/UseFipsEndpoint/ConfigurationProviderTest.php:107-114 | region `us-east-1` gives false |
| IniCases.ReadsDefaultProfile | tests/Endpoint/UseFipsEndpoint/ConfigurationProviderTest.php:145-155 | with no overrides, `ini()` reads profile "default" of `<home>/.aws/config`: false |
| IniCases.ReadsFileFromEnvironment | tests/Endpoint/UseFipsEndpoint/ConfigurationProviderTest.php:157-170 | `AWS_CONFIG_FILE` replaces `<home>/.aws/config`: the alternative file's default profile gives true |
| IniCases.ReadsProfileFromEnvironment | tests/Endpoint/UseFipsEndpoint/ConfigurationProviderTest.php:172-183 | `AWS_PROFILE=custom` selects the custom profile: true |
| IniCases.RejectsMissingFile | tests/Endpoint/UseFipsEndpoint/ConfigurationProviderTest.php:185-191 | a config file that does not exist is a file-not-found rejection |
| IniCases.RejectsProfileWithoutKey | tests/Endpoint/UseFipsEndpoint/ConfigurationProviderTest.php:193-207 | a profile section without `use_fips_endpoint` is a rejection |
| IniCases.RejectsEmptyFile | tests/Endpoint/UseFipsEndpoint/ConfigurationProviderTest.php:209-223 | an empty file rejects profile "foo" with a message containing "'foo' not found in" |
| IniCases.RejectsMalformedFile | tests/Endpoint/UseFipsEndpoint/ConfigurationProviderTest.php:225-239 | a file the parser refuses rejects with a message starting "Invalid config file:" |
| Chain.Resolve | tests/Endpoint/UseFipsEndpoint/ConfigurationProviderTest.php:116-143 | a fixed-value link yields its value, the environment, file and region links yield what `env()`, `ini()` and `fallback()` yield, and a region link never fails |
| Chain.ChainResolve | tests/Endpoint/UseFipsEndpoint/ConfigurationProviderTest.php:279-295 | the chain's reference definition: a success is the outcome of one of the links, and a failure is the last link's failure; `ChainSkipsFailures`, `ChainFirstSuccessWins`, `ChainAllFail`, `ChainSucceedsIff` and `RunChain` prove its properties |
| Chain.MakeChain | tests/Endpoint/UseFipsEndpoint/ConfigurationProviderTest.php:297-301 | building a chain fails, with an invalid-argument error, exactly when it is given no links |
| Chain.ChainSkipsFailures | tests/Endpoint/UseFipsEndpoint/ConfigurationProviderTest.php:279-295 | a prefix of failing links does not change what the chain settles on |
| Chain.ChainFirstSuccessWins | tests/Endpoint/UseFipsEndpoint/ConfigurationProviderTest.php:279-295 | the first succeeding link decides the chain |
| Chain.ChainAllFail | tests/Endpoint/UseFipsEndpoint/ConfigurationProviderTest.php:279-295 | when every link fails, the chain fails with the last link's reason |
| Chain.ChainSucceedsIff | tests/Endpoint/UseFipsEndpoint/ConfigurationProviderTest.php:279-295 | a chain succeeds exactly when one of its links does |
| Chain.RunChain | tests/Endpoint/UseFipsEndpoint/ConfigurationProviderTest.php:279-295 | running a chain invokes links 0, 1, ... in order, stops at the first success (every earlier invoked link failed), invokes every link when all fail, and yields the chain's outcome |
| ProviderCases.ChainsConfiguration | tests/Endpoint/UseFipsEndpoint/ConfigurationProviderTest.php:279-295 | `chain(ini('custom'), ini(), c)` yields true and invokes only the first link, so `c` is never called |
| Providers.Provider.Invoke | tests/Endpoint/UseFipsEndpoint/ConfigurationProviderTest.php:268-270 | each invocation really runs the resolver, counts the call, and yields that call's outcome |
| Providers.Cache.Get | tests/Endpoint/UseFipsEndpoint/ConfigurationProviderTest.php:350-356 | a lookup finds a value exactly when the key is present, and returns the stored value |
| Providers.Cache.Set | tests/Endpoint/UseFipsEndpoint/ConfigurationProviderTest.php:343 | storing binds the key to the value and leaves every other entry unchanged |
| Providers.Cache.Count | tests/Endpoint/UseFipsEndpoint/ConfigurationProviderTest.php:343 | the entry count is zero exactly when the cache is empty |
| Providers.CachedProvider.Invoke | tests/Endpoint/UseFipsEndpoint/ConfigurationProviderTest.php:319-363 | a hit returns the cached value without running the wrapped resolver; a miss runs it once and stores a success (a failure is not stored) |
| Providers.Memoized.Invoke | tests/Endpoint/UseFipsEndpoint/ConfigurationProviderTest.php:264-277 | the first invocation runs the wrapped resolver and keeps its outcome; later ones return the kept outcome and run nothing; the wrapped resolver runs at most once |
| Providers.MemoizeRunsOnce | tests/Endpoint/UseFipsEndpoint/ConfigurationProviderTest.php:264-277 | through `memoize`, a counting resolver runs once over any number of invocations, and every invocation yields the same value |
| Providers.PersistsToCache | tests/Endpoint/UseFipsEndpoint/ConfigurationProviderTest.php:319-345 | over repeated `cache` invocations, a resolver that succeeds only on its first call runs once; the cache holds exactly one entry, the result; the last outcome is that result |
| Default.DefaultLinks | tests/Endpoint/UseFipsEndpoint/ConfigurationProviderTest.php:116-143 | the default chain ends with the region fallback; it starts with the explicit value exactly when one is given; it contains the file resolver exactly when shared config files are enabled |
| Default.DefaultPrecedence | tests/Endpoint/UseFipsEndpoint/ConfigurationProviderTest.php:70-143 | the default chain yields the explicit value if given; otherwise a valid environment variable; otherwise a successful read of the file when enabled; otherwise the region fallback |
| Default.DefaultResolve | tests/Endpoint/UseFipsEndpoint/ConfigurationProviderTest.php:241-251 | the default chain always settles on a value: it never rejects |
| Default.DefaultFromEnvironment | tests/Endpoint/UseFipsEndpoint/ConfigurationProviderTest.php:70-78 | an environment variable spelling a boolean decides the default chain |
| Default.CreatesFromEnvironmentVariables | tests/Endpoint/UseFipsEndpoint/ConfigurationProviderTest.php:70-78 | `AWS_USE_FIPS_ENDPOINT=true` with region us-east-1 yields true |
| Default.DefaultFromRegion | tests/Endpoint/UseFipsEndpoint/ConfigurationProviderTest.php:80-87 | with no environment value and no usable file, the region fallback decides |
| Default.CreatesFromFipsRegion | tests/Endpoint/UseFipsEndpoint/ConfigurationProviderTest.php:80-87 | region fips-us-east-1 with nothing else configured yields true |
| Default.UsesClassDefault | tests/Endpoint/UseFipsEndpoint/ConfigurationProviderTest.php:241-251 | region us-east-1 with nothing else configured yields false |
| ProviderCases.SelectsEnvironmentOverIni | tests/Endpoint/UseFipsEndpoint/ConfigurationProviderTest.php:303-317 | `AWS_USE_FIPS_ENDPOINT=false` wins over a selected profile that says true |
| Default.IgnoresIniWhenSharedConfigDisabled | tests/Endpoint/UseFipsEndpoint/ConfigurationProviderTest.php:131-143 | with `use_aws_shared_config_files` false, the result does not depend on the filesystem at all |
| Default.IgnoresIniWithUseAwsConfigFileFalse | tests/Endpoint/UseFipsEndpoint/ConfigurationProviderTest.php:131-143 | with shared config files disabled, region us-east-1 yields false |
| ProviderCases.UsesIniWithUseAwsConfigFileTrue | tests/Endpoint/UseFipsEndpoint/ConfigurationProviderTest.php:116-129 | with shared config files enabled, the file named by `AWS_CONFIG_FILE` is read and yields true |
| Default.DefaultProvider | tests/Endpoint/UseFipsEndpoint/ConfigurationProviderTest.php:247 | the assembled provider is a fresh memoizer, with nothing resolved yet, over the cache handle (if any) over the default chain |
| Default.InvokeDefaultTwice | tests/Endpoint/UseFipsEndpoint/ConfigurationProviderTest.php:247-249 | invoking the default provider twice yields the default chain's outcome both times and runs the chain once |
| Default.CreatesFromCache | tests/Endpoint/UseFipsEndpoint/ConfigurationProviderTest.php:347-363 | a cache handle already holding a value under the key makes the provider yield that value without running the chain |

## Left out

- Promises and `->wait()`: a deferred outcome is the settled `Result` value. Laziness shows as "not invoked until called": see `Chain.RunChain`'s invoked list and the call counters.
- Real `getenv`/`putenv` and file I/O: the environment and filesystem are immutable inputs.
- The ini text parser: its output is taken as already parsed, with `None` for a file it rejects.
- The cache's `remove`, its time-to-live and the LRU eviction policy: only get, set and count are modelled.
- Chain.Source: a link is a leaf resolver, a fixed value or a closure over the environment and files. A nested chain or a stateful (counting, cached or memoized) resolver cannot be a link of a chain.
- Providers.Memoized: a memoizer always wraps a `CachedProvider`; one whose cache is null stands for "no cache wrapper", so a plain `memoize($f)` is a memoizer over `CachedProvider(f, null)`.
- Mock-builder mechanics and the reflection used to reach the private home-directory helper: the helper is modelled directly.
- Concurrency: invocations are sequential, so the memoizer's single run is proved for sequential calls only.
- "The identical value instance": configurations are values here. "Same instance" becomes "equal value, and no second run".
- Sources.HomeDir: when no home directory can be found and no file is named, resolution is a `HomeDirectoryUnresolvable` rejection. The provider's own handling of this case is not visible in the test.
- Config.BooleanValue: only "true", "1", "false" and "0" (any letter case) are read as booleans. Any other spelling the SDK's boolean helper may accept is not modelled.
- Default.Bag: an explicit `use_fips_endpoint` value is modelled as a boolean (`Override`). A `Configuration` object passed there is treated the same way.
- An empty profile name cannot arise: the profile falls back to `AWS_PROFILE` and then to "default" (`Sources.ProfileName` proves it is never empty). So no separate rejection exists for it.
