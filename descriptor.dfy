/**
  Normalisation of the decoded server descriptor (MultiDomainKernel::normalizeServerConfig)
  and the merge of its `fallback` section over the defaults.

  A descriptor has two sections, `environments` (port => environment entry) and
  `names` (logical name => domain list). A section that is missing or not an array
  is read as empty. Within a section every entry must be an array or a string: an
  environment string `s` becomes `{"name": s}`, a name string `s` becomes `[s]`,
  and any other value makes the whole descriptor malformed.
*/
module Descriptor {
  import opened Wrappers
  import opened PhpJson

  datatype Section = Environments | Names

  /** The array a string entry is rewritten to: `array('name' => $s)` for an
      environment, `array($s)` for a domain list. */
  function Wrapped(section: Section, s: string): Json
  {
    match section
    case Environments => JArray([(StrKey("name"), JString(s))])
    case Names => JArray([(IntKey(0), JString(s))])
  }

  /** One entry after normalisation, or None when the entry is neither an array nor a string. */
  function NormalEntry(section: Section, v: Json): Option<Json>
  {
    match v
    case JArray(_) => Some(v)
    case JString(s) => Some(Wrapped(section, s))
    case _ => None
  }

  /** A whole section after normalisation: the same keys in the same order, every
      value rewritten; None when some entry is refused. */
  function NormalizedEntries(es: seq<(Key, Json)>, section: Section): (r: Option<seq<(Key, Json)>>)
    ensures r.Some? <==> forall i :: 0 <= i < |es| ==> NormalEntry(section, es[i].1).Some?
    ensures r.Some? ==> |r.value| == |es| &&
                        forall i :: 0 <= i < |es| ==> r.value[i] == (es[i].0, NormalEntry(section, es[i].1).value)
  {
    if es == [] then Some([])
    else
      match (NormalEntry(section, es[0].1), NormalizedEntries(es[1..], section))
      case (Some(v), Some(rest)) =>
        var r := [(es[0].0, v)] + rest;
        assert forall i :: 1 <= i < |es| ==> r[i] == rest[i - 1] && es[i] == es[1..][i - 1];
        Some(r)
      case (None, _) => None
      case (Some(_), None) =>
        assert exists i :: 0 <= i < |es[1..]| && NormalEntry(section, es[1..][i].1).None?;
        None
  }

  /** After normalisation every entry of a section is an array, so normalising the
      result again changes nothing. */
  lemma {:induction false} NormalizedIsStable(es: seq<(Key, Json)>, section: Section)
    requires NormalizedEntries(es, section).Some?
    ensures forall i :: 0 <= i < |es| ==> NormalizedEntries(es, section).value[i].1.JArray?
    ensures NormalizedEntries(NormalizedEntries(es, section).value, section) == NormalizedEntries(es, section)
  {
    var out := NormalizedEntries(es, section).value;
    assert forall i :: 0 <= i < |out| ==> NormalEntry(section, out[i].1) == Some(out[i].1);
    var again := NormalizedEntries(out, section).value;
    assert again == out;
  }

  /** The `foreach (... as &$entry)` loop of normalizeServerConfig: rewrites the entries
      of one section in place, stopping at the first entry it refuses. */
  method NormalizeSection(es: seq<(Key, Json)>, section: Section) returns (r: Option<seq<(Key, Json)>>)
    ensures r == NormalizedEntries(es, section)
  {
    var rewritten := es;
    var i := 0;
    while i < |rewritten|
      invariant 0 <= i <= |rewritten| == |es|
      invariant forall j :: 0 <= j < i ==> NormalEntry(section, es[j].1).Some? &&
                                           rewritten[j] == (es[j].0, NormalEntry(section, es[j].1).value)
      invariant forall j :: i <= j < |es| ==> rewritten[j] == es[j]
    {
      var (key, value) := rewritten[i];
      if !value.JArray? {
        if !value.JString? {
          return None;
        }
        rewritten := rewritten[i := (key, Wrapped(section, value.s))];
      }
      i := i + 1;
    }
    assert rewritten == NormalizedEntries(es, section).value;
    return Some(rewritten);
  }

  /** The descriptor once both sections are normalised. */
  datatype NormalConfig = NormalConfig(environments: seq<(Key, Json)>, names: seq<(Key, Json)>)

  /** `$config[key]` read as a section: its entries when it is an array, empty otherwise
      (missing, null, or a scalar). A top-level value that is not an array has no sections. */
  function SectionEntries(config: Json, key: string): seq<(Key, Json)>
  {
    Entries(Lookup(Entries(config), key))
  }

  /** normalizeServerConfig's verdict and rewritten sections: environments are
      checked first, then names. */
  function Normalize(config: Json): Option<NormalConfig>
  {
    match NormalizedEntries(SectionEntries(config, "environments"), Environments)
    case None => None
    case Some(environments) =>
      match NormalizedEntries(SectionEntries(config, "names"), Names)
      case None => None
      case Some(names) => Some(NormalConfig(environments, names))
  }

  /** The `fallback` section; merging an empty one changes nothing, which is what the
      source's `isset && is_array` guard achieves. */
  function FallbackEntries(config: Json): seq<(Key, Json)>
  {
    SectionEntries(config, "fallback")
  }

  /** `fb[i]` is the first entry of `fb` with its (string) key. */
  predicate FirstStrKeyAt(fb: seq<(Key, Json)>, from: nat, i: nat)
  {
    from <= i < |fb| && fb[i].0.StrKey? &&
    forall j :: from <= j < i ==> fb[j].0 != fb[i].0
  }

  /** `array_merge($defaults, $fallback)` restricted to the string keys the kernel
      reads back, over the entries `fb[from..]`. */
  function MergeFrom(d: map<string, Json>, fb: seq<(Key, Json)>, from: nat): (r: map<string, Json>)
    requires from <= |fb|
    ensures forall i: nat :: FirstStrKeyAt(fb, from, i) ==> fb[i].0.s in r && r[fb[i].0.s] == fb[i].1
    ensures forall k :: k in d && (forall j :: from <= j < |fb| ==> fb[j].0 != StrKey(k)) ==>
                          k in r && r[k] == d[k]
    decreases |fb| - from
  {
    if from == |fb| then d
    else
      var rest := MergeFrom(d, fb, from + 1);
      match fb[from].0
      case StrKey(k) => rest[k := fb[from].1]
      case IntKey(_) => rest
  }

  /** The merge adds no key that neither the defaults nor `fb[from..]` has. */
  lemma {:induction false} MergeAddsOnlyFallbackKeys(d: map<string, Json>, fb: seq<(Key, Json)>, from: nat)
    requires from <= |fb|
    ensures forall k :: k in MergeFrom(d, fb, from) ==> k in d || exists j :: from <= j < |fb| && fb[j].0 == StrKey(k)
    decreases |fb| - from
  {
    if from < |fb| {
      MergeAddsOnlyFallbackKeys(d, fb, from + 1);
    }
  }

  /** Merging the fallback over the defaults: a fallback key overrides the default,
      every other default is kept. */
  function MergeFallback(d: map<string, Json>, fb: seq<(Key, Json)>): map<string, Json>
  {
    MergeFrom(d, fb, 0)
  }
}
