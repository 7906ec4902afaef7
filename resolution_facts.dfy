/**
  What the resolution promises, proved about the pure model of module Resolution:
  the token alone decides when there is no descriptor, a malformed descriptor and
  nothing else aborts, descriptor matches win over the fallback, an unmatched name
  falls back to the defaults, and the derived strings keep tenants apart.
*/
module ResolutionFacts {
  import opened Wrappers
  import opened PhpJson
  import opened Token
  import opened Debug
  import opened Descriptor
  import opened Resolution

  /** The name and environment the combined token alone gives, read independently of
      the defaults array: a combined token gives both, a bare suffix only the
      environment (the name stays "default"), anything else only the name (the
      environment stays "dev"). */
  function TokenIdentity(token: string): (string, string)
  {
    match SplitToken(token, ServerEnvironments)
    case Combined(name, env) => (name, env)
    case BareSuffix(env) => (DefaultName, env)
    case PlainName(name) => (name, DefaultEnvironment)
  }

  /** The defaults determineDefaults leaves, read back as the token's identity. */
  lemma {:induction false} TokenDefaultsAgree(token: string, debug: bool)
    ensures var d := TokenDefaults(InitialDefaults(), token, debug);
            DefaultOf(d, "name") == JString(TokenIdentity(token).0) &&
            DefaultOf(d, "environment") == JString(TokenIdentity(token).1) &&
            DefaultOf(d, "debug") == JBool(debug)
  {
    var d := TokenDefaults(InitialDefaults(), token, debug);
    match SplitToken(token, ServerEnvironments)
    case Combined(name, env) =>
      var j: nat :| GreedyAt(token, ServerEnvironments, j) && name == token[..j] &&
                    Some(env) == SuffixAt(token, j, ServerEnvironments);
      assert d["name"] == JString(token[..j]);
    case BareSuffix(env) =>
    case PlainName(name) =>
  }

  /** Without a descriptor (from the command line, or with no descriptor file) the
      combined token alone decides the name and environment, and the debug flag is
      the constructor's. */
  lemma {:induction false} WithoutDescriptorTokenDecides(token: string, debug: bool, isCli: bool, file: DescriptorFile,
                                                         host: string, port: int, rootDir: string)
    requires isCli || file.Absent?
    ensures Resolve(token, debug, isCli, file, host, port, rootDir) ==
            Booted(JString(TokenIdentity(token).0), JString(TokenIdentity(token).1), debug)
  {
    TokenDefaultsAgree(token, debug);
    var s0 := State(Unresolved, TokenDefaults(InitialDefaults(), token, debug));
    var id := Finalize(s0, host, port);
    assert id.name == JString(TokenIdentity(token).0);
    assert id.environment == JString(TokenIdentity(token).1);
    assert id.debug == Some(DebugFlag(JBool(debug)));
  }

  /** The end-to-end example: token "shop_prod", debug off, no descriptor file. */
  lemma ShopProdWithoutDescriptor(host: string, port: int, rootDir: string)
    ensures Resolve("shop_prod", false, false, Absent, host, port, rootDir) ==
            Booted(JString("shop"), JString("prod"), false)
    ensures KernelEnvironment(JString("shop"), JString("prod")) == "shop_prod"
    ensures CacheDir(rootDir, JString("shop"), JString("prod")) == rootDir + "/cache/shop/prod"
  {
    assert ToPhpString(JString("shop")) == "shop" && ToPhpString(JString("prod")) == "prod";
    assert "shop" + "_" + "prod" == "shop_prod";
    assert "shop" + "_" + "prod" + "" == "shop_prod";
    assert "/cache/" + "shop" + "/" + "prod" == "/cache/shop/prod";
    assert rootDir + "/cache/" + "shop" + "/" + "prod" == rootDir + ("/cache/" + "shop" + "/" + "prod");
    SplitJoined("shop", "prod", "");
    assert TokenIdentity("shop_prod") == ("shop", "prod");
    WithoutDescriptorTokenDecides("shop_prod", false, false, Absent, host, port, rootDir);
  }

  /** Construction stops exactly when PHP is not on the command line and the
      descriptor file is present but decodes to null or fails normalisation; the
      message names the descriptor's path. An absent file is never an error. */
  lemma {:induction false} AbortsExactlyWhenMalformed(token: string, debug: bool, isCli: bool, file: DescriptorFile,
                                                      host: string, port: int, rootDir: string)
    ensures Resolve(token, debug, isCli, file, host, port, rootDir).Aborted? <==>
            !isCli && file.Present? && (file.decoded == JNull || Normalize(file.decoded).None?)
    ensures Resolve(token, debug, isCli, file, host, port, rootDir).Aborted? ==>
            Resolve(token, debug, isCli, file, host, port, rootDir).message == MalformedMessage(rootDir)
  {
    if !isCli && file.Present? && file.decoded != JNull && Normalize(file.decoded).Some? {
      DescriptorLoaded(Start(token, debug), file.decoded, host, port, rootDir, Normalize(file.decoded).value);
    }
  }

  /** The three outcomes of loading: an absent file leaves the state as it was; a
      null decode or a refused normalisation stops with the state as it was; a good
      descriptor merges the fallback over the defaults, each fallback key overriding
      the default of the same name and every other default kept. */
  lemma {:induction false} LoadOutcomes(s: State, file: DescriptorFile, host: string, port: int, rootDir: string)
    ensures file.Absent? ==> LoadDescriptor(s, file, host, port, rootDir) == (Done(false), s)
    ensures file.Present? && (file.decoded == JNull || Normalize(file.decoded).None?) ==>
              LoadDescriptor(s, file, host, port, rootDir) == (Die(MalformedMessage(rootDir)), s)
    ensures file.Present? && file.decoded != JNull && Normalize(file.decoded).Some? ==>
              var d := LoadDescriptor(s, file, host, port, rootDir).1.defaults;
              var fb := FallbackEntries(file.decoded);
              (forall i: nat :: FirstStrKeyAt(fb, 0, i) ==> fb[i].0.s in d && d[fb[i].0.s] == fb[i].1) &&
              (forall k :: k in s.defaults && (forall j :: 0 <= j < |fb| ==> fb[j].0 != StrKey(k)) ==>
                             k in d && d[k] == s.defaults[k])
  {
  }

  /** The defaults a well-formed descriptor leaves: the token's, with the fallback merged over them. */
  function DescriptorDefaults(token: string, debug: bool, config: Json): map<string, Json>
  {
    MergeFallback(TokenDefaults(InitialDefaults(), token, debug), FallbackEntries(config))
  }

  /** The identity the descriptor's two loops leave behind when the port selects
      the environment entry `i` and the host is a domain of the name entry `k`: the
      environment is that entry's `name`, the debug flag its normalised `debug` (or
      still null), and the name is the key of entry `k`. */
  lemma {:induction false} MatchedIdentity(nc: NormalConfig, host: string, port: int, i: nat, k: nat)
    requires FirstPort(nc.environments, port) == Some(i)
    requires FirstServing(nc.names, host) == Some(k)
    ensures var entry := Entries(nc.environments[i].1);
            AfterSetName(AfterSetEnvironment(Unresolved, JArray(nc.environments), port), JArray(nc.names), host) ==
            Identity(KeyValue(nc.names[k].0), Lookup(entry, "name"),
                     if IsSet(entry, "debug") then Some(DebugFlag(Lookup(entry, "debug"))) else None)
  {
    PortMatching(Unresolved, JArray(nc.environments), port);
    var id1 := AfterSetEnvironment(Unresolved, JArray(nc.environments), port);
    NameMatching(id1, JArray(nc.names), host);
  }

  /** When the port matches an environment whose `name` is a string and the host is
      one of the domains of a name, that environment and that name (its key as a PHP
      value: a string, or an integer for a decimal member name such as "2024") are
      the resolved identity, whatever the fallback says; debug comes from the
      matched entry when it sets one, and from the defaults otherwise. */
  lemma {:induction false} DescriptorMatchWins(token: string, debug: bool, config: Json, host: string, port: int,
                                               rootDir: string, nc: NormalConfig, i: nat, k: nat, env: string)
    requires config != JNull && Normalize(config) == Some(nc)
    requires FirstPort(nc.environments, port) == Some(i)
    requires Lookup(Entries(nc.environments[i].1), "name") == JString(env)
    requires FirstServing(nc.names, host) == Some(k)
    ensures var entry := Entries(nc.environments[i].1);
            var d := DescriptorDefaults(token, debug, config);
            Resolve(token, debug, false, Present(config), host, port, rootDir) ==
            Booted(KeyValue(nc.names[k].0), JString(env),
                   if IsSet(entry, "debug") then DebugFlag(Lookup(entry, "debug")) else DebugFlag(DefaultOf(d, "debug")))
  {
    var entry := Entries(nc.environments[i].1);
    var d := DescriptorDefaults(token, debug, config);
    MatchedIdentity(nc, host, port, i, k);
    var id := Identity(KeyValue(nc.names[k].0), JString(env),
                       if IsSet(entry, "debug") then Some(DebugFlag(Lookup(entry, "debug"))) else None);
    DescriptorLoaded(Start(token, debug), config, host, port, rootDir, nc);
    ResolveInSteps(token, debug, false, Present(config), host, port, rootDir, Done(true), State(id, d));
    FinalizeFillsDefaults(State(id, d), host, port);
    if IsSet(entry, "debug") {
      DebugFlagMeaning(Lookup(entry, "debug"));
    }
  }

  /** When the port matches no environment, or the host matches no name, the name
      falls back to the defaults (with the fallback merged in). Since the port is
      matched first and its failure ends the loading, a host that IS listed is
      ignored whenever the port is not. */
  lemma {:induction false} UnmatchedNameFallsBack(token: string, debug: bool, config: Json, host: string, port: int,
                                                  rootDir: string, nc: NormalConfig, fallbackName: string)
    requires config != JNull && Normalize(config) == Some(nc)
    requires FirstPort(nc.environments, port).None? || FirstServing(nc.names, host).None?
    requires DefaultOf(DescriptorDefaults(token, debug, config), "name") == JString(fallbackName)
    ensures var b := Resolve(token, debug, false, Present(config), host, port, rootDir);
            b.Booted? && b.name == JString(fallbackName)
  {
    var d := DescriptorDefaults(token, debug, config);
    var s0 := State(Unresolved, TokenDefaults(InitialDefaults(), token, debug));
    var id1 := AfterSetEnvironment(Unresolved, JArray(nc.environments), port);
    PortMatching(Unresolved, JArray(nc.environments), port);
    DescriptorLoaded(s0, config, host, port, rootDir, nc);
    var (outcome, s1) := LoadDescriptor(s0, Present(config), host, port, rootDir);
    assert s1 == State(id1, d);
    ResolveInSteps(token, debug, false, Present(config), host, port, rootDir, outcome, s1);
    FinalizeFillsDefaults(s1, host, port);
  }

  /** The kernel environment `name_environment` handed to the framework reads back,
      through the same token parser, as that name and environment. */
  lemma KernelEnvironmentSplitsBack(name: string, env: string)
    requires env in ServerEnvironments
    ensures SplitToken(KernelEnvironment(JString(name), JString(env)), ServerEnvironments) == Combined(name, env)
  {
    assert KernelEnvironment(JString(name), JString(env)) == name + "_" + env + "";
    SplitJoined(name, env, "");
  }

  /** Two names without a slash and two environments give the same cache directory
      only if they are the same name and environment: tenants never share a cache. */
  lemma CacheDirsDistinct(rootDir: string, name1: string, env1: string, name2: string, env2: string)
    requires forall i :: 0 <= i < |name1| ==> name1[i] != '/'
    requires forall i :: 0 <= i < |name2| ==> name2[i] != '/'
    requires CacheDir(rootDir, JString(name1), JString(env1)) == CacheDir(rootDir, JString(name2), JString(env2))
    ensures name1 == name2 && env1 == env2
  {
    var prefix := rootDir + "/cache/";
    var t1 := name1 + "/" + env1;
    var t2 := name2 + "/" + env2;
    assert CacheDir(rootDir, JString(name1), JString(env1)) == prefix + t1;
    assert CacheDir(rootDir, JString(name2), JString(env2)) == prefix + t2;
    assert (prefix + t1)[|prefix|..] == t1 && (prefix + t2)[|prefix|..] == t2;
    JoinedInjective(name1, env1, name2, env2);
  }

  /** `name/env` determines the name and the environment when the name has no slash. */
  lemma JoinedInjective(name1: string, env1: string, name2: string, env2: string)
    requires forall i :: 0 <= i < |name1| ==> name1[i] != '/'
    requires forall i :: 0 <= i < |name2| ==> name2[i] != '/'
    requires name1 + "/" + env1 == name2 + "/" + env2
    ensures name1 == name2 && env1 == env2
  {
    JoinedAt(name1, env1);
    JoinedAt(name2, env2);
    if |name1| < |name2| {
      assert false;
    } else if |name2| < |name1| {
      assert false;
    }
  }

  /** Where the parts of `name/env` sit. */
  lemma JoinedAt(name: string, env: string)
    ensures (name + "/" + env)[|name|] == '/'
    ensures forall i :: 0 <= i < |name| ==> (name + "/" + env)[i] == name[i]
    ensures (name + "/" + env)[..|name|] == name && (name + "/" + env)[|name| + 1..] == env
  {
  }
}
