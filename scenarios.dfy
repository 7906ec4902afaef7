/**
  Concrete descriptors run through the model: a name served by two domains, two
  environments on two ports, a names entry that is neither a string nor a list,
  and a names entry given as a single domain.
*/
module Scenarios {
  import opened Wrappers
  import opened PhpJson
  import opened Debug
  import opened Descriptor
  import opened Resolution

  /** `{"acme": ["a.com", "b.com"]}` as json_decode reads it. */
  function AcmeNames(): seq<(Key, Json)>
  {
    [(StrKey("acme"), JArray([(IntKey(0), JString("a.com")), (IntKey(1), JString("b.com"))]))]
  }

  /** `{"80": {"name": "prod"}, "8080": {"name": "dev", "debug": true}}`; the
      decimal member names become integer keys. */
  function TwoPorts(): seq<(Key, Json)>
  {
    [(IntKey(80), JArray([(StrKey("name"), JString("prod"))])),
     (IntKey(8080), JArray([(StrKey("name"), JString("dev")), (StrKey("debug"), JBool(true))]))]
  }

  /** The second domain of "acme" resolves to "acme"; an unlisted host matches
      nothing and leaves the name unresolved. */
  lemma AcmeServesItsDomains(id: Identity)
    ensures SetNameResult(JArray(AcmeNames()), "b.com") == Some(true)
    ensures AfterSetName(id, JArray(AcmeNames()), "b.com") == id.(name := JString("acme"))
    ensures SetNameResult(JArray(AcmeNames()), "c.com") == Some(false)
    ensures AfterSetName(id, JArray(AcmeNames()), "c.com") == id
  {
    var domains := AcmeNames()[0].1;
    assert Entries(domains)[1].1 == JString("b.com");
    assert Serves(domains, "b.com");
    NameMatching(id, JArray(AcmeNames()), "b.com");
    NameMatching(id, JArray(AcmeNames()), "c.com");
  }

  /** Port 8080 selects the second entry: environment "dev" and debug on. */
  lemma PortSelectsEnvironment()
    ensures SetEnvironmentResult(JArray(TwoPorts()), 8080) == Some(true)
    ensures AfterSetEnvironment(Unresolved, JArray(TwoPorts()), 8080) == Identity(JNull, JString("dev"), Some(true))
  {
    PortMatching(Unresolved, JArray(TwoPorts()), 8080);
    assert KeyToInt(TwoPorts()[0].0) != 8080;
    assert KeyToInt(TwoPorts()[1].0) == 8080;
  }

  /** A descriptor whose `names` section maps "x" to a number. */
  function NumberName(): Json
  {
    JArray([(StrKey("names"), JArray([(StrKey("x"), JInt(123))]))])
  }

  /** A descriptor whose `names` section maps "x" to a single domain. */
  function SingleDomain(): Json
  {
    JArray([(StrKey("names"), JArray([(StrKey("x"), JString("single.com"))]))])
  }

  /** A number where a domain list belongs stops construction with the
      malformed-descriptor message. */
  lemma NumberNameAborts(token: string, debug: bool, host: string, port: int, rootDir: string)
    ensures Normalize(NumberName()).None?
    ensures Resolve(token, debug, false, Present(NumberName()), host, port, rootDir) == Aborted(MalformedMessage(rootDir))
  {
    assert SectionEntries(NumberName(), "environments") == [];
    assert SectionEntries(NumberName(), "names") == [(StrKey("x"), JInt(123))];
    assert NormalEntry(Names, JInt(123)).None?;
  }

  /** A single domain is rewritten to a one-element list, and construction goes on. */
  lemma SingleDomainNormalizes(token: string, debug: bool, host: string, port: int, rootDir: string)
    ensures Normalize(SingleDomain()) ==
            Some(NormalConfig([], [(StrKey("x"), JArray([(IntKey(0), JString("single.com"))]))]))
    ensures Resolve(token, debug, false, Present(SingleDomain()), host, port, rootDir).Booted?
  {
    assert SectionEntries(SingleDomain(), "environments") == [];
    assert SectionEntries(SingleDomain(), "names") == [(StrKey("x"), JString("single.com"))];
    var names := [(StrKey("x"), JString("single.com"))];
    assert NormalEntry(Names, names[0].1) == Some(JArray([(IntKey(0), JString("single.com"))]));
    var r := NormalizedEntries(names, Names);
    assert r.Some? && |r.value| == 1 && r.value[0] == (StrKey("x"), JArray([(IntKey(0), JString("single.com"))]));
    assert r.value == [r.value[0]];
    assert r == Some([(StrKey("x"), JArray([(IntKey(0), JString("single.com"))]))]);
    var nc := NormalConfig([], [(StrKey("x"), JArray([(IntKey(0), JString("single.com"))]))]);
    var s0 := State(Unresolved, TokenDefaults(InitialDefaults(), token, debug));
    DescriptorLoaded(s0, SingleDomain(), host, port, rootDir, nc);
  }

  /** The flag is on for true, "true" and "TRUE", and off for "yes", 1 and false. */
  lemma DebugSpellings()
    ensures DebugFlag(JBool(true)) && DebugFlag(JString("true")) && DebugFlag(JString("TRUE"))
    ensures !DebugFlag(JString("yes")) && !DebugFlag(JInt(1)) && !DebugFlag(JBool(false))
  {
    DebugFlagMeaning(JString("TRUE"));
    DebugFlagMeaning(JString("true"));
    DebugFlagMeaning(JString("yes"));
  }
}
