/**
  The server-identity resolution of MultiDomainKernel as pure functions over the
  kernel's state: the three resolved fields (server name, server environment,
  debug flag) and the defaults array. Each function gives the state after one
  kernel method; `Resolve` composes them in the order of the constructor. The
  class in kernel.dfy is proved to follow these functions step by step.

  The ambient request values `$_SERVER['SERVER_NAME']` and
  `$_SERVER['SERVER_PORT']` are the parameters `host` and `port`; whether PHP
  runs from the command line is `isCli`; the descriptor file is given as
  already read and decoded (`DescriptorFile`).
*/
module Resolution {
  import opened Wrappers
  import opened PhpJson
  import opened Token
  import opened Debug
  import opened Descriptor

  /** The application kernel's default name and environment (getDefaultEnvironment). */
  const DefaultName := "default"
  const DefaultEnvironment := "dev"

  function InitialDefaults(): map<string, Json>
  {
    map["name" := JString(DefaultName), "environment" := JString(DefaultEnvironment)]
  }

  /** `$this->defaults[k]`: null when the key is missing. */
  function DefaultOf(d: map<string, Json>, k: string): Json
  {
    if k in d then d[k] else JNull
  }

  /** determineDefaults: the debug default is the constructor's flag verbatim; a
      combined token sets both name and environment; a bare suffix sets only the
      environment; any other token sets only the name. Every other default keeps its value. */
  function TokenDefaults(d: map<string, Json>, token: string, debug: bool): (r: map<string, Json>)
    ensures "debug" in r && r["debug"] == JBool(debug)
    ensures forall j: nat :: GreedyAt(token, ServerEnvironments, j) ==>
              "name" in r && r["name"] == JString(token[..j]) &&
              "environment" in r && r["environment"] == JString(SuffixAt(token, j, ServerEnvironments).value)
    ensures !Matches(token, ServerEnvironments) && token in ServerEnvironments ==>
              "environment" in r && r["environment"] == JString(token) &&
              DefaultOf(r, "name") == DefaultOf(d, "name")
    ensures !Matches(token, ServerEnvironments) && token !in ServerEnvironments ==>
              "name" in r && r["name"] == JString(token) &&
              DefaultOf(r, "environment") == DefaultOf(d, "environment")
    ensures forall k :: k in d && k != "name" && k != "environment" && k != "debug" ==> k in r && r[k] == d[k]
  {
    var d1 := d["debug" := JBool(debug)];
    var split := SplitToken(token, ServerEnvironments);
    GreedySplit(token, ServerEnvironments);
    match split
    case Combined(n, e) => d1["name" := JString(n)]["environment" := JString(e)]
    case BareSuffix(e) => d1["environment" := JString(e)]
    case PlainName(n) => d1["name" := JString(n)]
  }

  /** The kernel's `server_name`, `server_environment` and `server_debug`;
      JNull and None stand for PHP's null (not yet resolved). */
  datatype Identity = Identity(name: Json, environment: Json, debug: Option<bool>)

  const Unresolved := Identity(JNull, JNull, None)

  /** The domain list `domains` contains the host, compared strictly (`===`). */
  predicate Serves(domains: Json, host: string)
  {
    exists i :: 0 <= i < |Entries(domains)| && Entries(domains)[i].1 == JString(host)
  }

  /** Name matching: the first name, in the descriptor's order, one of whose
      domains is the host. */
  function FirstServing(names: seq<(Key, Json)>, host: string): (r: Option<nat>)
    ensures r.Some? ==> r.value < |names| && Serves(names[r.value].1, host)
    ensures r.Some? ==> forall j :: 0 <= j < r.value ==> !Serves(names[j].1, host)
    ensures r.None? ==> forall j :: 0 <= j < |names| ==> !Serves(names[j].1, host)
  {
    FirstWhere(names, (e: (Key, Json)) => Serves(e.1, host), 0)
  }

  /** Port matching: the first environment entry whose key, cast to an integer,
      equals the port. */
  function FirstPort(environments: seq<(Key, Json)>, port: int): (r: Option<nat>)
    ensures r.Some? ==> r.value < |environments| && KeyToInt(environments[r.value].0) == port
    ensures r.Some? ==> forall j :: 0 <= j < r.value ==> KeyToInt(environments[j].0) != port
    ensures r.None? ==> forall j :: 0 <= j < |environments| ==> KeyToInt(environments[j].0) != port
  {
    FirstWhere(environments, (e: (Key, Json)) => KeyToInt(e.0) == port, 0)
  }

  /** setServerName: a string is adopted; anything else is scanned as a names
      section, and the first matching name is adopted, its key as a PHP value. */
  function AfterSetName(id: Identity, config: Json, host: string): Identity
  {
    if config.JString? then id.(name := config)
    else
      match FirstServing(Entries(config), host)
      case Some(i) => id.(name := KeyValue(Entries(config)[i].0))
      case None => id
  }

  /** setServerName's return value: null for a string, otherwise whether a name matched. */
  function SetNameResult(config: Json, host: string): Option<bool>
  {
    if config.JString? then None else Some(FirstServing(Entries(config), host).Some?)
  }

  /** setServerDebug. */
  function AfterSetDebug(id: Identity, v: Json): Identity
  {
    id.(debug := Some(DebugFlag(v)))
  }

  /** setServerEnvironment: a string is adopted; anything else is scanned as an
      environments section. The first entry for the port gives the environment
      (its `name`, null when it has none) and, when it sets `debug`, the debug flag. */
  function AfterSetEnvironment(id: Identity, config: Json, port: int): Identity
  {
    if config.JString? then id.(environment := config)
    else
      match FirstPort(Entries(config), port)
      case None => id
      case Some(i) =>
        var entry := Entries(Entries(config)[i].1);
        var id1 := id.(environment := Lookup(entry, "name"));
        if IsSet(entry, "debug") then AfterSetDebug(id1, Lookup(entry, "debug")) else id1
  }

  /** setServerEnvironment's return value: null for a string, otherwise whether a port matched. */
  function SetEnvironmentResult(config: Json, port: int): Option<bool>
  {
    if config.JString? then None else Some(FirstPort(Entries(config), port).Some?)
  }

  /** The resolver's state: the three fields and the defaults array. */
  datatype State = State(id: Identity, defaults: map<string, Json>)

  /** The descriptor file as the kernel finds it: absent, or present with the value
      json_decode gave for its text (JNull when the text is not valid JSON). */
  datatype DescriptorFile = Absent | Present(decoded: Json)

  /** useServerConfigFile's outcome: its boolean result, or the process stopping with a message. */
  datatype LoadOutcome = Done(matched: bool) | Die(message: string)

  /** getServerConfigFile. */
  function ServerConfigFile(rootDir: string): string
  {
    rootDir + "/config/server.json"
  }

  function MalformedMessage(rootDir: string): string
  {
    "Your " + ServerConfigFile(rootDir) + " is malformed please fix or remove it."
  }

  /** useServerConfigFile: an absent file changes nothing; an undecodable or
      malformed one stops the process; otherwise the fallback is merged over the
      defaults, the port is matched, and only if that succeeds the host. */
  function LoadDescriptor(s: State, file: DescriptorFile, host: string, port: int, rootDir: string): (LoadOutcome, State)
  {
    match file
    case Absent => (Done(false), s)
    case Present(config) =>
      if config == JNull then (Die(MalformedMessage(rootDir)), s)
      else
        match Normalize(config)
        case None => (Die(MalformedMessage(rootDir)), s)
        case Some(nc) =>
          var defaults := MergeFallback(s.defaults, FallbackEntries(config));
          var environments := JArray(nc.environments);
          var id1 := AfterSetEnvironment(s.id, environments, port);
          if SetEnvironmentResult(environments, port) == Some(false) then
            (Done(false), State(id1, defaults))
          else
            var names := JArray(nc.names);
            (Done(SetNameResult(names, host) != Some(false)), State(AfterSetName(id1, names, host), defaults))
  }

  /** A well-formed descriptor: the fallback is merged over the defaults, the port
      is matched, and only if it matched are the names scanned for the host; the
      result says whether both matched. */
  lemma DescriptorLoaded(s: State, config: Json, host: string, port: int, rootDir: string, nc: NormalConfig)
    requires config != JNull && Normalize(config) == Some(nc)
    ensures var defaults := MergeFallback(s.defaults, FallbackEntries(config));
            var id1 := AfterSetEnvironment(s.id, JArray(nc.environments), port);
            LoadDescriptor(s, Present(config), host, port, rootDir) ==
              if FirstPort(nc.environments, port).None? then (Done(false), State(id1, defaults))
              else (Done(FirstServing(nc.names, host).Some?), State(AfterSetName(id1, JArray(nc.names), host), defaults))
  {
    var environments := JArray(nc.environments);
    if FirstPort(nc.environments, port).None? {
      assert SetEnvironmentResult(environments, port) == Some(false);
    } else {
      assert SetEnvironmentResult(environments, port) == Some(true);
      assert SetNameResult(JArray(nc.names), host) == Some(FirstServing(nc.names, host).Some?);
    }
  }

  /** The last three statements of the constructor before the parent is built:
      each field still null takes its default, and every field is passed through
      its setter again (so the debug flag always goes through the normaliser). */
  function Finalize(s: State, host: string, port: int): (r: Identity)
    ensures r.debug.Some?
  {
    var d := s.defaults;
    var id1 := AfterSetName(s.id, if s.id.name == JNull then DefaultOf(d, "name") else s.id.name, host);
    var id2 := AfterSetEnvironment(id1, if id1.environment == JNull then DefaultOf(d, "environment") else id1.environment, port);
    AfterSetDebug(id2, if id2.debug.None? then DefaultOf(d, "debug") else JBool(id2.debug.value))
  }

  /** setServerName: a string is adopted and the result is null; otherwise the result
      says whether some name serves the host, the first such name (in the section's
      order) is adopted, and with no match the identity is left as it was. The
      environment and the debug flag are never touched. */
  lemma {:induction false} NameMatching(id: Identity, config: Json, host: string)
    ensures config.JString? ==> SetNameResult(config, host) == None && AfterSetName(id, config, host) == id.(name := config)
    ensures !config.JString? ==>
              (SetNameResult(config, host) == Some(true) <==>
               exists i :: 0 <= i < |Entries(config)| && Serves(Entries(config)[i].1, host))
    ensures !config.JString? && SetNameResult(config, host) == Some(false) ==> AfterSetName(id, config, host) == id
    ensures forall i :: !config.JString? && 0 <= i < |Entries(config)| && Serves(Entries(config)[i].1, host) &&
                        (forall j :: 0 <= j < i ==> !Serves(Entries(config)[j].1, host)) ==>
                        AfterSetName(id, config, host) == id.(name := KeyValue(Entries(config)[i].0))
    ensures AfterSetName(id, config, host).environment == id.environment
    ensures AfterSetName(id, config, host).debug == id.debug
  {
    var names := Entries(config);
    forall i | !config.JString? && 0 <= i < |names| && Serves(names[i].1, host) &&
               (forall j :: 0 <= j < i ==> !Serves(names[j].1, host))
      ensures AfterSetName(id, config, host) == id.(name := KeyValue(names[i].0))
    {
      var r := FirstServing(names, host);
      assert r.Some? && r.value == i;
    }
  }

  /** setServerEnvironment: a string is adopted and the result is null; otherwise the
      result says whether some key equals the port, the first such entry gives the
      environment (its `name`, null when missing) and, only when it sets `debug`, the
      normalised debug flag; with no match the identity is left as it was. The name
      is never touched. */
  lemma {:induction false} PortMatching(id: Identity, config: Json, port: int)
    ensures config.JString? ==>
              SetEnvironmentResult(config, port) == None && AfterSetEnvironment(id, config, port) == id.(environment := config)
    ensures !config.JString? ==>
              (SetEnvironmentResult(config, port) == Some(true) <==>
               exists i :: 0 <= i < |Entries(config)| && KeyToInt(Entries(config)[i].0) == port)
    ensures !config.JString? && SetEnvironmentResult(config, port) == Some(false) ==> AfterSetEnvironment(id, config, port) == id
    ensures forall i :: !config.JString? && 0 <= i < |Entries(config)| && KeyToInt(Entries(config)[i].0) == port &&
                        (forall j :: 0 <= j < i ==> KeyToInt(Entries(config)[j].0) != port) ==>
                        var entry := Entries(Entries(config)[i].1);
                        AfterSetEnvironment(id, config, port).environment == Lookup(entry, "name") &&
                        AfterSetEnvironment(id, config, port).debug ==
                          if IsSet(entry, "debug") then Some(DebugFlag(Lookup(entry, "debug"))) else id.debug
    ensures AfterSetEnvironment(id, config, port).name == id.name
  {
    var environments := Entries(config);
    forall i | !config.JString? && 0 <= i < |environments| && KeyToInt(environments[i].0) == port &&
               (forall j :: 0 <= j < i ==> KeyToInt(environments[j].0) != port)
      ensures AfterSetEnvironment(id, config, port).environment == Lookup(Entries(environments[i].1), "name")
      ensures AfterSetEnvironment(id, config, port).debug ==
                if IsSet(Entries(environments[i].1), "debug") then Some(DebugFlag(Lookup(Entries(environments[i].1), "debug"))) else id.debug
    {
      var r := FirstPort(environments, port);
      assert r.Some? && r.value == i;
    }
  }

  /** The end of the constructor: a name or environment still null is replaced by
      its default before going through its setter again. A string is adopted; any
      other value that is not an array (an integer name, or a null or scalar
      default) matches nothing and leaves the field as it was. When the environment
      step adopts or matches nothing, the debug flag is the normalised default when
      still null, the normalised current flag otherwise. */
  lemma {:induction false} FinalizeFillsDefaults(s: State, host: string, port: int)
    ensures var nameArg := if s.id.name == JNull then DefaultOf(s.defaults, "name") else s.id.name;
            !nameArg.JArray? ==>
              Finalize(s, host, port).name == if nameArg.JString? then nameArg else s.id.name
    ensures var environmentArg := if s.id.environment == JNull then DefaultOf(s.defaults, "environment") else s.id.environment;
            !environmentArg.JArray? ==>
              Finalize(s, host, port).environment == (if environmentArg.JString? then environmentArg else s.id.environment) &&
              Finalize(s, host, port).debug ==
                Some(DebugFlag(if s.id.debug.None? then DefaultOf(s.defaults, "debug") else JBool(s.id.debug.value)))
  {
    var d := s.defaults;
    var nameArg := if s.id.name == JNull then DefaultOf(d, "name") else s.id.name;
    NameMatching(s.id, nameArg, host);
    var id1 := AfterSetName(s.id, nameArg, host);
    var environmentArg := if id1.environment == JNull then DefaultOf(d, "environment") else id1.environment;
    PortMatching(id1, environmentArg, port);
  }

  /** What constructing the kernel ends in: the resolved identity, or the process
      stopped by a malformed descriptor. */
  datatype Boot = Booted(name: Json, environment: Json, debug: bool) | Aborted(message: string)

  /** The state once determineDefaults has run over the application kernel's defaults. */
  function Start(token: string, debug: bool): State
  {
    State(Unresolved, TokenDefaults(InitialDefaults(), token, debug))
  }

  /** The descriptor step of the constructor, skipped when PHP runs from the command line. */
  function Load(isCli: bool, s: State, file: DescriptorFile, host: string, port: int, rootDir: string): (LoadOutcome, State)
  {
    if isCli then (Done(false), s) else LoadDescriptor(s, file, host, port, rootDir)
  }

  /** The end of the constructor: the abort, or the finalised identity of the loaded state. */
  function Conclude(loaded: (LoadOutcome, State), host: string, port: int): Boot
  {
    match loaded.0
    case Die(message) => Aborted(message)
    case Done(_) =>
      var id := Finalize(loaded.1, host, port);
      Booted(id.name, id.environment, id.debug.value)
  }

  /** The constructor, from the combined token and debug flag to the resolved identity. */
  function Resolve(token: string, debug: bool, isCli: bool, file: DescriptorFile,
                   host: string, port: int, rootDir: string): Boot
  {
    Conclude(Load(isCli, Start(token, debug), file, host, port, rootDir), host, port)
  }

  /** Resolve, read step by step: the outcome of loading the descriptor after
      determineDefaults decides between the abort and the finalised identity. */
  lemma ResolveInSteps(token: string, debug: bool, isCli: bool, file: DescriptorFile,
                       host: string, port: int, rootDir: string, outcome: LoadOutcome, s1: State)
    requires (outcome, s1) == Load(isCli, Start(token, debug), file, host, port, rootDir)
    ensures outcome.Die? ==> Resolve(token, debug, isCli, file, host, port, rootDir) == Aborted(outcome.message)
    ensures outcome.Done? ==>
              var id := Finalize(s1, host, port);
              Resolve(token, debug, isCli, file, host, port, rootDir) == Booted(id.name, id.environment, id.debug.value)
  {
  }

  /** The environment string handed to the framework kernel: `name_environment`. */
  function KernelEnvironment(name: Json, environment: Json): string
  {
    ToPhpString(name) + "_" + ToPhpString(environment)
  }

  /** getCacheDir: `<root>/cache/<name>/<environment>`. */
  function CacheDir(rootDir: string, name: Json, environment: Json): string
  {
    rootDir + "/cache/" + ToPhpString(name) + "/" + ToPhpString(environment)
  }
}
