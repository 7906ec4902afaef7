# MultiDomainKernel server-identity resolver in Dafny

This project models the part of `MultiDomainKernel` (a Symfony kernel that serves several tenants from one code base) that decides, at construction, which tenant and runtime a request belongs to. It resolves three things:

- the **server name**, i.e. the tenant;
- the **server environment**: `dev`, `prod` or `test`;
- the **debug flag**.

It resolves them from:

- the combined token the kernel is constructed with (`shop_prod`, `prod`, `shop`);
- the debug flag it is constructed with;
- the optional descriptor `config/server.json`;
- the request's host and port.

From the result it derives two strings:

- the kernel environment `name_environment` handed to the framework;
- the cache directory `<root>/cache/<name>/<environment>`.

Modules:

- `Wrappers` (`wrappers.dfy`): the `Option` type.
- `PhpJson` (`php_json.dfy`): the decoded descriptor as PHP sees it.
  - An array is an *ordered* sequence of key/value entries, because matching is first-match-wins in insertion order.
  - Also defined here: `foreach`, `$a['k']`, `isset`, the `(int)` cast of a key, and PHP's string conversion.
- `Token` (`token.dfy`): the regular expression `/(.*)_(dev|prod|test)/` of `determineDefaults`, written out as functions.
  - The match position is the *last* `_` followed by a suffix, because `.*` is greedy.
  - The environment is the first alternative, in list order, that follows it.
  - Text after the suffix is ignored.
- `Debug` (`debug.dfy`): the predicate of `setServerDebug`.
- `Descriptor` (`descriptor.dfy`): `normalizeServerConfig`.
  - A pure specification (`NormalizedEntries`, `Normalize`).
  - A loop method that rewrites a section entry by entry (`NormalizeSection`).
  - The `fallback` merge (`MergeFrom`).
- `Resolution` (`resolution.dfy`): the kernel's state as pure functions.
  - The state is the three fields plus the defaults array.
  - There is one function per kernel method, composed into `Resolve` in the order of the constructor.
  - The lemmas here state what each step means.
- `Kernel` (`kernel.dfy`): the class `MultiDomainKernel`.
  - Its fields are updated in place by the constructor and the setters, using loops with early returns as in the PHP.
  - Each method is proved to leave the state the matching `Resolution` function gives.
  - The constructor is proved to end in `Resolve`.
- `ResolutionFacts` (`resolution_facts.dfy`) and `Scenarios` (`scenarios.dfy`): end-to-end properties and concrete descriptors.

## Inputs that become parameters

- `$_SERVER['SERVER_NAME']` and `$_SERVER['SERVER_PORT']` are the parameters `host` and `port`.
- `php_sapi_name() !== 'cli'` is the parameter `isCli`.
- The descriptor file is a `DescriptorFile`: either `Absent`, or `Present(decoded)` carrying what `json_decode($text, true)` returned. An undecodable text is `Present(JNull)`.
- The root directory is the parameter `rootDir`.
- `die(...)` becomes a value:
  - in the class, the field `halted` records the message;
  - in the pure model, the outcome is `Aborted(message)`.
- The application kernel's constants are written out as constants:
  - the default name `default` and default environment `dev` (`getDefaultEnvironment`);
  - the suffixes `dev`, `prod` and `test` (`getServerEnvironments`).

## Where the model follows the code rather than a looser reading of it

- **Port failure short-circuits the name.** `useServerConfigFile` joins the two matchers with `||`. So when the port matches no environment, the names are never scanned, and the server name falls back to the defaults even when the host is listed. `UnmatchedNameFallsBack` states this. A reading in which the name and environment resolvers are independent is not what the code does.
- **Bare suffix and plain name keep the other default.** A bare suffix token (`prod`) sets only the default environment. The default name stays whatever `getDefaultEnvironment` gave (`default`), not unset. A plain name token likewise keeps the default environment `dev`.
- **Environment entries may lack `name`.** An environment entry is not checked for a `name` key. A matched entry without one sets the environment to null, and the constructor then fills it from the defaults.

## Model

| member | source | states |
|---|---|---|
| Token.SuffixAt | app/MultiDomainKernel.php:77-79 | the alternative found at a position is a suffix that follows `_` there, and the first such in the list's order; none exactly when no suffix follows |
| Token.LastMatchBelow | app/MultiDomainKernel.php:79 | the greedy `.*`: the last position below a bound where `_` and a suffix follow, and no later one; none when no position matches |
| Token.SplitToken | app/MultiDomainKernel.php:79-91 | the token is split as combined exactly when the pattern matches anywhere, then at the greedy (last) position with the name the text before it; a bare suffix exactly when nothing matches and the token is a suffix; otherwise the name is the whole token |
| Token.GreedyUnique | app/MultiDomainKernel.php:79 | the greedy match position is unique |
| Token.GreedySplit | app/MultiDomainKernel.php:79-83 | at the greedy position the token splits into the text before it and the suffix found there |
| Token.OnlySuffixFollowing | app/MultiDomainKernel.php:79 | when `_x` with x a suffix follows a position, the alternative found there is x (no suffix is a prefix of another) |
| Token.SuffixesHaveNoUnderscore | app/AppKernel.php:49-51 | no recognised suffix contains `_` |
| Token.NoMatchWithoutUnderscore | app/MultiDomainKernel.php:79 | the pattern cannot match at a position that does not hold `_` |
| Token.NoLaterMatch | app/MultiDomainKernel.php:79 | in `name_x rest` with x a suffix and no `_` in rest, no position after the name can end the `(.*)` |
| Token.SplitJoined | app/MultiDomainKernel.php:79-83 | for any name, `name_x` followed by text without `_` splits back to that name and suffix x, whatever `_` the name itself contains |
| Token.SplitBareSuffix | app/MultiDomainKernel.php:85-87 | a bare suffix token is recognised as a bare suffix |
| PhpJson.FirstWhere | app/MultiDomainKernel.php:162-170 | the first index whose element satisfies the test, none when no element does |
| PhpJson.Lookup | app/MultiDomainKernel.php:189 | `$a['k']` is the value of the first entry with key k, and null when no entry has key k |
| PhpJson.DigitPrefix | app/MultiDomainKernel.php:188 | the leading run of decimal digits of a string key, and no longer run |
| PhpJson.NatToString | app/MultiDomainKernel.php:62 | the decimal text of an integer name is all digits, has no leading zero (except `0` itself) and reads back as the number |
| Debug.LowerCharIs | app/MultiDomainKernel.php:205 | `strtolower` maps a character to a lower-case letter exactly when it is that letter or its upper-case form |
| Debug.DebugFlagMeaning | app/MultiDomainKernel.php:204-209 | the flag is on exactly for boolean true or a string spelling "true" in any letter case; normalising the result again changes nothing |
| Descriptor.NormalizedEntries | app/MultiDomainKernel.php:126-143 | a section normalises exactly when every entry is an array or a string; then the keys and order are kept and every entry is rewritten (string to `{name: s}` or `[s]`, array kept) |
| Descriptor.NormalizedIsStable | app/MultiDomainKernel.php:126-143 | after normalisation every entry is an array, and normalising again changes nothing |
| Descriptor.NormalizeSection | app/MultiDomainKernel.php:126-132 | the by-reference loop computes exactly the normalised section, or stops on the first refused entry |
| Descriptor.MergeFrom | app/MultiDomainKernel.php:146-147 | every fallback key overrides the default of the same name with its first value; every default the fallback does not name is kept |
| Descriptor.MergeAddsOnlyFallbackKeys | app/MultiDomainKernel.php:146-147 | the merge adds no key that neither the defaults nor the fallback has |
| Resolution.TokenDefaults | app/MultiDomainKernel.php:74-93 | the debug default is the constructor's flag verbatim; a combined token sets the name to the text before the greedy match and the environment to its suffix; a bare suffix sets only the environment and keeps the name; any other token sets only the name and keeps the environment; other defaults are kept |
| Resolution.FirstServing | app/MultiDomainKernel.php:162-169 | the first name, in order, with a domain strictly equal to the host; none when no name has one |
| Resolution.FirstPort | app/MultiDomainKernel.php:187-188 | the first environment key whose integer value equals the port; none when no key does |
| Resolution.NameMatching | app/MultiDomainKernel.php:158-174 | a string is adopted with a null result; otherwise the result is true exactly when some name serves the host, the first such name is adopted, no match leaves the identity unchanged; environment and debug untouched |
| Resolution.PortMatching | app/MultiDomainKernel.php:183-199 | a string is adopted with a null result; otherwise the result is true exactly when some key equals the port, the first such entry gives the environment (its `name`) and the normalised debug only when it sets `debug`; no match leaves the identity unchanged; the name untouched |
| Resolution.DescriptorLoaded | app/MultiDomainKernel.php:107-113 | a well-formed descriptor merges the fallback, matches the port, and scans the names only when the port matched; the result is true exactly when both matched |
| Resolution.Finalize | app/MultiDomainKernel.php:58-60 | the debug flag is always resolved after the constructor's last three steps |
| Resolution.FinalizeFillsDefaults | app/MultiDomainKernel.php:58-60 | a name or environment still null takes its default when that is a string; a set one that is not an array (a string, or an integer name) is kept; after such an environment step the debug flag is the normalised default when still null, the normalised current flag otherwise |
| Resolution.ResolveInSteps | app/MultiDomainKernel.php:52-66 | after determineDefaults and the descriptor step, construction aborts with the loader's message when loading died, and otherwise ends in the finalised identity of the loaded state |
| Kernel.MultiDomainKernel.constructor | app/MultiDomainKernel.php:52-66 | the fields end in `Resolve`'s identity, or `halted` holds the abort message; the framework environment is `name_environment` and the framework debug flag is the resolved one |
| Kernel.MultiDomainKernel.Resume | app/MultiDomainKernel.php:55-66 | from the state determineDefaults leaves, the rest of the constructor ends in `Resolve`'s identity or halts with its abort message |
| Kernel.MultiDomainKernel.LoadPhase | app/MultiDomainKernel.php:55-56 | outcome and new state are those of the descriptor step, which is skipped from the command line |
| Kernel.MultiDomainKernel.Finish | app/MultiDomainKernel.php:58-63 | a failed load halts with its message and changes nothing else (identity, framework environment and debug flag all unchanged); otherwise the identity is finalised from the defaults and the framework environment and debug flag are derived from it |
| Kernel.MultiDomainKernel.FillFromDefaults | app/MultiDomainKernel.php:58-60 | the three setter calls leave exactly the finalised identity and the defaults unchanged |
| Kernel.MultiDomainKernel.DetermineDefaults | app/MultiDomainKernel.php:74-93 | the defaults become `TokenDefaults` of the old defaults |
| Kernel.MultiDomainKernel.UseServerConfigFile | app/MultiDomainKernel.php:101-114 | outcome and new state are those of `LoadDescriptor` on the old state |
| Kernel.MultiDomainKernel.NormalizeServerConfig | app/MultiDomainKernel.php:121-150 | the verdict and rewritten sections are `Normalize`'s, and the fallback is merged into the defaults only on success |
| Kernel.MultiDomainKernel.SetServerName | app/MultiDomainKernel.php:158-174 | result and identity are `SetNameResult` and `AfterSetName` of the old identity (whose meaning `NameMatching` states) |
| Kernel.MultiDomainKernel.SetServerEnvironment | app/MultiDomainKernel.php:183-199 | result and identity are `SetEnvironmentResult` and `AfterSetEnvironment` of the old identity (whose meaning `PortMatching` states) |
| Kernel.MultiDomainKernel.SetServerDebug | app/MultiDomainKernel.php:204-209 | the debug field becomes the normalised flag |
| ResolutionFacts.TokenDefaultsAgree | app/MultiDomainKernel.php:53-54 | starting from `default`/`dev`, the defaults name and environment are those the token alone gives, and debug is the constructor's flag |
| ResolutionFacts.WithoutDescriptorTokenDecides | app/MultiDomainKernel.php:52-66 | from the command line or without a descriptor file, the token alone decides name and environment and debug is the constructor's flag |
| ResolutionFacts.ShopProdWithoutDescriptor | app/MultiDomainKernel.php:52-66 | token `shop_prod`, debug off, no descriptor: name `shop`, environment `prod`, debug off, framework environment `shop_prod`, cache directory `<root>/cache/shop/prod` |
| ResolutionFacts.AbortsExactlyWhenMalformed | app/MultiDomainKernel.php:105-108 | construction aborts exactly when not on the command line and the file is present but undecodable or refused by normalisation, with the message naming the descriptor |
| ResolutionFacts.LoadOutcomes | app/MultiDomainKernel.php:101-108 | an absent file changes nothing; a malformed one dies with the state unchanged; a good one overrides each default the fallback names and keeps the rest |
| ResolutionFacts.MatchedIdentity | app/MultiDomainKernel.php:110-111 | when the port selects an environment entry and the host a name entry, the loops leave that entry's name and normalised debug and the name entry's key |
| ResolutionFacts.DescriptorMatchWins | app/MultiDomainKernel.php:107-113 | when port and host both match, the matched name (its key, a string or an integer) and environment are the identity whatever the fallback says, and debug comes from the entry when set, from the defaults otherwise |
| ResolutionFacts.UnmatchedNameFallsBack | app/MultiDomainKernel.php:110-111 | when the port or the host matches nothing, the name is the defaults' name; a listed host is ignored when the port did not match |
| ResolutionFacts.KernelEnvironmentSplitsBack | app/MultiDomainKernel.php:62 | the framework environment `name_environment` parses back, through the same token parser, to that name and environment |
| ResolutionFacts.CacheDirsDistinct | app/MultiDomainKernel.php:245-248 | for names without `/`, equal cache directories mean the same name and environment |
| ResolutionFacts.JoinedInjective | app/MultiDomainKernel.php:247 | for names without `/`, `name/env` determines the name and the environment |
| ResolutionFacts.JoinedAt | app/MultiDomainKernel.php:247 | in `name/env` the name comes first, then the `/`, then the environment |
| Scenarios.AcmeServesItsDomains | app/MultiDomainKernel.php:158-170 | with names `{"acme": ["a.com","b.com"]}`, host `b.com` resolves to `acme`, host `c.com` fails and leaves the name unset |
| Scenarios.PortSelectsEnvironment | app/MultiDomainKernel.php:183-193 | with environments on 80 and 8080, port 8080 gives environment `dev` and debug on |
| Scenarios.NumberNameAborts | app/MultiDomainKernel.php:138-140 | a number where a domain list belongs aborts construction with the malformed message |
| Scenarios.SingleDomainNormalizes | app/MultiDomainKernel.php:138-143 | a single domain string is rewritten to a one-element list and construction goes on |
| Scenarios.DebugSpellings | app/MultiDomainKernel.php:204-209 | true, "true" and "TRUE" turn debug on; "yes", 1 and false turn it off |

## Left out

- File I/O and decoding: `file_exists`, `file_get_contents` and `json_decode` are not modelled. The descriptor comes in already decoded.
- Floating-point JSON numbers have no counterpart in `Json`.
- Duplicate member names: json_decode keeps the last of duplicate member names in one JSON object. The model expects distinct keys, as a decoded PHP array has them; given duplicates, it reads the first.
- `(int)` on a string key reads its leading decimal digits only. Leading whitespace, signs and exponents are not modelled. json_decode turns canonical decimal member names into integer keys, which are compared exactly.
- Integer width: PHP's `(int)` saturates at PHP_INT_MAX, both for an environment key too long for an integer (app/MultiDomainKernel.php:188) and for `SERVER_PORT` (line 186). The model reads both as unbounded integers, so a key of 20 or more digits is compared with the port by its full value.
- Ambient state: `$_SERVER`, `php_sapi_name()` and the process exit of `die` are parameters and an abort value.
- Descriptor top level: a descriptor whose decoded top level is a scalar (for instance `5`) is read as having no sections. PHP 8 would instead raise an error on the by-reference section assignment.
- `strtolower` on an array: in `setServerDebug` it is read as "not true". PHP 8 would raise a type error.
- Regex newlines: `.` in the token pattern is treated as matching every character, including a newline, which PCRE's `.` does not match by default. Tokens containing newlines are outside the model.
- `$server_config`: this field is declared but never assigned, so it is not modelled.
- The Symfony parent kernel is outside the model: `parent::__construct`, `getKernelParameters`, `registerBundles` and `registerContainerConfiguration`. The model keeps only the environment string and debug flag handed to it.
- The getters (`getServerName`, `getServerEnvironment`, `getServerDebug`, `getServerConfigFile`, `getCacheDir`) are plain reads and string builders. They are modelled as functions (`ServerName`, `ConfigFilePath`, `CacheDirectory`, ...) without contracts of their own. `CacheDirsDistinct` and `KernelEnvironmentSplitsBack` state what the two string builders guarantee.
- Resolution.Finalize: its own contract only promises a resolved debug flag. `FinalizeFillsDefaults` states the rest for every value that is not an array. An array default name or environment (possible through `fallback`) goes through the setters' scan, as in the source, and that case has no dedicated lemma.
