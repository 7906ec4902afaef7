/**
  MultiDomainKernel as a class: its fields are updated step by step by the
  constructor and the setters, step by step as in the PHP kernel. Every method is
  proved to leave the state the pure functions of module Resolution describe,
  and the constructor to end in `Resolve`.
*/
module Kernel {
  import opened Wrappers
  import opened PhpJson
  import opened Token
  import opened Debug
  import opened Descriptor
  import opened Resolution

  class MultiDomainKernel {
    /** `server_environment`, `server_name`, `server_debug`; JNull / None is PHP's null. */
    var serverEnvironment: Json
    var serverName: Json
    var serverDebug: Option<bool>
    /** `defaults`: the fallback name, environment and debug flag (and any other fallback keys). */
    var defaults: map<string, Json>
    /** What the framework kernel keeps: its root directory, and the environment
        string and debug flag the constructor hands to it. */
    const rootDir: string
    var environment: string
    var debug: bool
    /** The message printed by `die` when a malformed descriptor stopped the process. */
    var halted: Option<string>

    /** The resolver's state as the pure model sees it. */
    ghost function Current(): State
      reads this`serverName, this`serverEnvironment, this`serverDebug, this`defaults
    {
      State(Identity(serverName, serverEnvironment, serverDebug), defaults)
    }

    /** __construct($environment, $debug): the combined token is `token`; the
        descriptor file, the request's host and port, and whether PHP runs from the
        command line are parameters. */
    constructor (token: string, debugFlag: bool, isCli: bool, file: DescriptorFile,
                 host: string, port: int, root: string)
      ensures rootDir == root
      ensures Resolve(token, debugFlag, isCli, file, host, port, root) ==
              if halted.Some? then Aborted(halted.value) else Booted(serverName, serverEnvironment, debug)
      ensures halted.None? ==> serverDebug == Some(debug)
      ensures halted.None? ==> environment == KernelEnvironment(serverName, serverEnvironment)
    {
      serverEnvironment, serverName, serverDebug := JNull, JNull, None;
      defaults := InitialDefaults();
      rootDir := root;
      environment, debug, halted := "", false, None;
      new;
      DetermineDefaults(token, debugFlag);
      assert Current() == Start(token, debugFlag);
      Resume(token, debugFlag, isCli, file, host, port);
    }

    /** __construct after determineDefaults: the descriptor step, then the finishing steps. */
    method Resume(token: string, debugFlag: bool, isCli: bool, file: DescriptorFile, host: string, port: int)
      requires halted.None? && Current() == Start(token, debugFlag)
      modifies this`serverName, this`serverEnvironment, this`serverDebug, this`defaults,
               this`environment, this`debug, this`halted
      ensures Resolve(token, debugFlag, isCli, file, host, port, rootDir) ==
              if halted.Some? then Aborted(halted.value) else Booted(serverName, serverEnvironment, debug)
      ensures halted.None? ==> serverDebug == Some(debug)
      ensures halted.None? ==> environment == KernelEnvironment(serverName, serverEnvironment)
    {
      var outcome := LoadPhase(isCli, file, host, port);
      ResolveInSteps(token, debugFlag, isCli, file, host, port, rootDir, outcome, Current());
      Finish(outcome, host, port);
    }

    /** The end of __construct: `die` when loading failed; otherwise every field is
        filled from the defaults and passed through its setter again, and the
        environment string and debug flag for the framework kernel are derived. */
    method Finish(outcome: LoadOutcome, host: string, port: int)
      requires halted.None?
      modifies this`serverName, this`serverEnvironment, this`serverDebug, this`environment, this`debug, this`halted
      ensures outcome.Die? ==> halted == Some(outcome.message) && Current() == old(Current()) &&
                               environment == old(environment) && debug == old(debug)
      ensures outcome.Done? ==>
                var id := Finalize(old(Current()), host, port);
                halted.None? && Current() == State(id, defaults) && debug == id.debug.value &&
                environment == KernelEnvironment(id.name, id.environment)
    {
      if outcome.Die? {
        halted := Some(outcome.message);
      } else {
        FillFromDefaults(host, port);
        environment := KernelEnvironment(serverName, serverEnvironment);
        debug := serverDebug.value;
      }
    }

    /** The descriptor step of __construct: useServerConfigFile, unless PHP runs from
        the command line. */
    method LoadPhase(isCli: bool, file: DescriptorFile, host: string, port: int) returns (outcome: LoadOutcome)
      modifies this`serverName, this`serverEnvironment, this`serverDebug, this`defaults
      ensures (outcome, Current()) == Load(isCli, old(Current()), file, host, port, rootDir)
    {
      outcome := Done(false);
      if !isCli {
        outcome := UseServerConfigFile(file, host, port);
      }
    }

    /** The second half of __construct: each field still null takes its default, and
        every field is passed through its setter again. */
    method FillFromDefaults(host: string, port: int)
      modifies this`serverName, this`serverEnvironment, this`serverDebug
      ensures Current() == State(Finalize(old(Current()), host, port), defaults)
    {
      var nameArg := if serverName == JNull then DefaultOf(defaults, "name") else serverName;
      var nameResult := SetServerName(nameArg, host);
      var environmentArg := if serverEnvironment == JNull then DefaultOf(defaults, "environment") else serverEnvironment;
      var environmentResult := SetServerEnvironment(environmentArg, port);
      SetServerDebug(if serverDebug.None? then DefaultOf(defaults, "debug") else JBool(serverDebug.value));
    }

    /** determineDefaults: records the debug flag and splits the combined token. */
    method DetermineDefaults(token: string, debugFlag: bool)
      modifies this`defaults
      ensures defaults == TokenDefaults(old(defaults), token, debugFlag)
    {
      defaults := defaults["debug" := JBool(debugFlag)];
      match SplitToken(token, ServerEnvironments)
      case Combined(name, env) =>
        defaults := defaults["name" := JString(name)]["environment" := JString(env)];
      case BareSuffix(env) =>
        defaults := defaults["environment" := JString(env)];
      case PlainName(name) =>
        defaults := defaults["name" := JString(name)];
    }

    /** useServerConfigFile. */
    method UseServerConfigFile(file: DescriptorFile, host: string, port: int) returns (r: LoadOutcome)
      modifies this`serverName, this`serverEnvironment, this`serverDebug, this`defaults
      ensures (r, Current()) == LoadDescriptor(old(Current()), file, host, port, rootDir)
    {
      if file.Absent? {
        return Done(false);
      }
      var config := file.decoded;
      var normalized: Option<NormalConfig> := None;
      if config != JNull {
        normalized := NormalizeServerConfig(config);
      }
      if config == JNull || normalized.None? {
        return Die(MalformedMessage(rootDir));
      }
      var environmentResult := SetServerEnvironment(JArray(normalized.value.environments), port);
      if environmentResult == Some(false) {
        return Done(false);
      }
      var nameResult := SetServerName(JArray(normalized.value.names), host);
      if nameResult == Some(false) {
        return Done(false);
      }
      return Done(true);
    }

    /** normalizeServerConfig: returns the rewritten sections, or None for a
        malformed descriptor; merges the fallback into the defaults only on success. */
    method NormalizeServerConfig(config: Json) returns (r: Option<NormalConfig>)
      modifies this`defaults
      ensures r == Normalize(config)
      ensures defaults == if r.Some? then MergeFallback(old(defaults), FallbackEntries(config)) else old(defaults)
    {
      var environments := NormalizeSection(SectionEntries(config, "environments"), Environments);
      if environments.None? {
        return None;
      }
      var names := NormalizeSection(SectionEntries(config, "names"), Names);
      if names.None? {
        return None;
      }
      defaults := MergeFallback(defaults, FallbackEntries(config));
      return Some(NormalConfig(environments.value, names.value));
    }

    /** setServerName: adopts a string; otherwise scans the names section for the
        first domain equal to the host. */
    method SetServerName(config: Json, host: string) returns (r: Option<bool>)
      modifies this`serverName
      ensures r == SetNameResult(config, host)
      ensures Current().id == AfterSetName(old(Current()).id, config, host)
    {
      if config.JString? {
        serverName := config;
        return None;
      }
      var names := Entries(config);
      var i := 0;
      while i < |names|
        invariant 0 <= i <= |names|
        invariant forall j :: 0 <= j < i ==> !Serves(names[j].1, host)
      {
        var domains := Entries(names[i].1);
        var k := 0;
        while k < |domains|
          invariant 0 <= k <= |domains|
          invariant forall m :: 0 <= m < k ==> domains[m].1 != JString(host)
        {
          if domains[k].1 == JString(host) {
            serverName := KeyValue(names[i].0);
            return Some(true);
          }
          k := k + 1;
        }
        i := i + 1;
      }
      return Some(false);
    }

    /** setServerEnvironment: adopts a string; otherwise scans the environments
        section for the first key equal to the port. */
    method SetServerEnvironment(config: Json, port: int) returns (r: Option<bool>)
      modifies this`serverEnvironment, this`serverDebug
      ensures r == SetEnvironmentResult(config, port)
      ensures Current().id == AfterSetEnvironment(old(Current()).id, config, port)
    {
      if config.JString? {
        serverEnvironment := config;
        return None;
      }
      var environments := Entries(config);
      var i := 0;
      while i < |environments|
        invariant 0 <= i <= |environments|
        invariant forall j :: 0 <= j < i ==> KeyToInt(environments[j].0) != port
      {
        if port == KeyToInt(environments[i].0) {
          var entry := Entries(environments[i].1);
          serverEnvironment := Lookup(entry, "name");
          if IsSet(entry, "debug") {
            SetServerDebug(Lookup(entry, "debug"));
          }
          return Some(true);
        }
        i := i + 1;
      }
      return Some(false);
    }

    /** setServerDebug. */
    method SetServerDebug(v: Json)
      modifies this`serverDebug
      ensures serverDebug == Some(DebugFlag(v))
    {
      if v == JBool(true) || (v.JString? && AsciiLower(v.s) == "true") {
        serverDebug := Some(true);
      } else {
        serverDebug := Some(false);
      }
    }

    function ServerName(): Json
      reads this
    {
      serverName
    }

    function ServerEnvironment(): Json
      reads this
    {
      serverEnvironment
    }

    function ServerDebug(): Option<bool>
      reads this
    {
      serverDebug
    }

    /** getServerConfigFile. */
    function ConfigFilePath(): string
      reads this
    {
      ServerConfigFile(rootDir)
    }

    /** getCacheDir. */
    function CacheDirectory(): string
      reads this
    {
      CacheDir(rootDir, serverName, serverEnvironment)
    }
  }
}
