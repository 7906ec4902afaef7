/**
  The combined-token parser of MultiDomainKernel::determineDefaults. The kernel
  matches its `$environment` argument against the unanchored pattern
  `/(.*)_(dev|prod|test)/`. Here that match is written out as functions over
  strings: the greedy `(.*)` picks the LAST position at which an underscore
  followed by a suffix occurs, the alternation picks the first suffix (in list
  order) that follows it, and text after the suffix is ignored.
*/
module Token {
  import opened Wrappers

  /** The environment suffixes the application kernel recognises, in the order of
      its getServerEnvironments. */
  const ServerEnvironments: seq<string> := ["dev", "prod", "test"]

  /** `t` has an underscore at `j`, immediately followed by `x`. */
  predicate SuffixFollows(t: string, j: nat, x: string)
  {
    j + 1 + |x| <= |t| && t[j] == '_' && t[j + 1..j + 1 + |x|] == x
  }

  /** What the alternation `(dev|prod|test)` matches after an underscore at `j`:
      the first suffix in list order that follows it, if any. */
  function SuffixAt(t: string, j: nat, suffixes: seq<string>): (r: Option<string>)
    ensures r.Some? ==> r.value in suffixes && SuffixFollows(t, j, r.value)
    ensures r.Some? ==> exists n :: 0 <= n < |suffixes| && suffixes[n] == r.value &&
                          forall m :: 0 <= m < n ==> !SuffixFollows(t, j, suffixes[m])
    ensures r.None? <==> forall x :: x in suffixes ==> !SuffixFollows(t, j, x)
  {
    if suffixes == [] then None
    else if SuffixFollows(t, j, suffixes[0]) then Some(suffixes[0])
    else
      var r := SuffixAt(t, j, suffixes[1..]);
      assert r.Some? ==> exists n :: 0 <= n < |suffixes| && suffixes[n] == r.value &&
                          forall m :: 0 <= m < n ==> !SuffixFollows(t, j, suffixes[m]) by {
        if r.Some? {
          var n :| 0 <= n < |suffixes[1..]| && suffixes[1..][n] == r.value &&
                   forall m :: 0 <= m < n ==> !SuffixFollows(t, j, suffixes[1..][m]);
          assert forall m :: 0 <= m < n + 1 ==> !SuffixFollows(t, j, suffixes[m]) by {
            forall m | 0 <= m < n + 1 ensures !SuffixFollows(t, j, suffixes[m]) {
              if m > 0 { assert suffixes[m] == suffixes[1..][m - 1]; }
            }
          }
        }
      }
      r
  }

  /** Some match of the pattern ends its `(.*)` at `j`. */
  predicate MatchesAt(t: string, suffixes: seq<string>, j: nat)
  {
    SuffixAt(t, j, suffixes).Some?
  }

  /** The pattern matches `t` somewhere. */
  predicate Matches(t: string, suffixes: seq<string>)
  {
    exists j :: 0 <= j < |t| && MatchesAt(t, suffixes, j)
  }

  /** `j` is where the greedy `(.*)` stops: the last position a match can end it at. */
  predicate GreedyAt(t: string, suffixes: seq<string>, j: nat)
  {
    j < |t| && MatchesAt(t, suffixes, j) &&
    forall k :: j < k < |t| ==> !MatchesAt(t, suffixes, k)
  }

  /** The last match position below `hi`, scanning down as the greedy `(.*)` backtracks. */
  function LastMatchBelow(t: string, suffixes: seq<string>, hi: nat): (r: Option<nat>)
    requires hi <= |t|
    ensures r.Some? ==> r.value < hi && MatchesAt(t, suffixes, r.value)
    ensures r.Some? ==> forall k :: r.value < k < hi ==> !MatchesAt(t, suffixes, k)
    ensures r.None? ==> forall k :: 0 <= k < hi ==> !MatchesAt(t, suffixes, k)
    decreases hi
  {
    if hi == 0 then None
    else if MatchesAt(t, suffixes, hi - 1) then Some(hi - 1)
    else
      var r := LastMatchBelow(t, suffixes, hi - 1);
      assert r.Some? ==> forall k :: r.value < k < hi ==> !MatchesAt(t, suffixes, k) by {
        if r.Some? {
          forall k | r.value < k < hi ensures !MatchesAt(t, suffixes, k) {
            if k < hi - 1 {
              assert r.value < k < hi - 1;
            }
          }
        }
      }
      r
  }

  /** How determineDefaults reads its token: a name and an environment, only an
      environment, or only a name. */
  datatype Split =
    | Combined(name: string, environment: string)
    | BareSuffix(environment: string)
    | PlainName(name: string)

  /** The three branches of determineDefaults: the pattern matched (both groups
      captured); else the token is itself a suffix; else the token is a name. */
  function SplitToken(t: string, suffixes: seq<string>): (r: Split)
    ensures r.Combined? <==> Matches(t, suffixes)
    ensures r.Combined? ==> exists j: nat :: GreedyAt(t, suffixes, j) && r.name == t[..j] &&
                                        Some(r.environment) == SuffixAt(t, j, suffixes)
    ensures r.BareSuffix? <==> !Matches(t, suffixes) && t in suffixes
    ensures r.BareSuffix? ==> r.environment == t
    ensures r.PlainName? ==> r.name == t
  {
    match LastMatchBelow(t, suffixes, |t|)
    case Some(j) =>
      assert GreedyAt(t, suffixes, j);
      Combined(t[..j], SuffixAt(t, j, suffixes).value)
    case None =>
      if t in suffixes then BareSuffix(t) else PlainName(t)
  }

  /** At most one position is the greedy one. */
  lemma GreedyUnique(t: string, suffixes: seq<string>, i: nat, j: nat)
    requires GreedyAt(t, suffixes, i) && GreedyAt(t, suffixes, j)
    ensures i == j
  {
  }

  /** At the greedy position the token splits into the text before it and the
      suffix found there. */
  lemma GreedySplit(t: string, suffixes: seq<string>)
    ensures forall j: nat :: GreedyAt(t, suffixes, j) ==>
              SplitToken(t, suffixes) == Combined(t[..j], SuffixAt(t, j, suffixes).value)
  {
    forall j: nat | GreedyAt(t, suffixes, j)
      ensures SplitToken(t, suffixes) == Combined(t[..j], SuffixAt(t, j, suffixes).value)
    {
      var r := SplitToken(t, suffixes);
      var i: nat :| GreedyAt(t, suffixes, i) && r.name == t[..i] && Some(r.environment) == SuffixAt(t, i, suffixes);
      GreedyUnique(t, suffixes, i, j);
    }
  }

  /** No two of the application's suffixes start with the same letter, so after an
      underscore at most one of them can follow. */
  lemma {:induction false} OnlySuffixFollowing(t: string, j: nat, x: string)
    requires x in ServerEnvironments && SuffixFollows(t, j, x)
    ensures SuffixAt(t, j, ServerEnvironments) == Some(x)
  {
    var r := SuffixAt(t, j, ServerEnvironments);
    assert r.Some?;
    assert t[j + 1] == x[0] == r.value[0];
    assert r.value in ServerEnvironments;
  }

  /** None of the application's suffixes contains an underscore. */
  lemma SuffixesHaveNoUnderscore(x: string)
    requires x in ServerEnvironments
    ensures forall i :: 0 <= i < |x| ==> x[i] != '_'
  {
  }

  /** No match of the pattern can end its `(.*)` where there is no underscore. */
  lemma NoMatchWithoutUnderscore(t: string, k: nat, suffixes: seq<string>)
    requires k < |t| && t[k] != '_'
    ensures !MatchesAt(t, suffixes, k)
  {
  }

  /** A name, an underscore, a recognised suffix and any trailing text without an
      underscore split back into that name and that suffix: the name is taken up to
      the LAST underscore that a suffix follows, and the trailing text is ignored
      ("a_b_devx" reads as name "a_b", environment "dev"). */
  lemma {:induction false} SplitJoined(name: string, x: string, rest: string)
    requires x in ServerEnvironments
    requires forall i :: 0 <= i < |rest| ==> rest[i] != '_'
    ensures SplitToken(name + "_" + x + rest, ServerEnvironments) == Combined(name, x)
  {
    var t := name + "_" + x + rest;
    var n := |name|;
    assert t[..n] == name && t[n] == '_';
    assert t[n + 1..n + 1 + |x|] == x;
    OnlySuffixFollowing(t, n, x);
    NoLaterMatch(name, x, rest);
    assert GreedyAt(t, ServerEnvironments, n);
    GreedySplit(t, ServerEnvironments);
  }

  /** After the underscore that precedes the suffix, `name_x rest` holds no other
      underscore, so no later position can end the `(.*)`. */
  lemma {:induction false} NoLaterMatch(name: string, x: string, rest: string)
    requires x in ServerEnvironments
    requires forall i :: 0 <= i < |rest| ==> rest[i] != '_'
    ensures var t := name + "_" + x + rest;
            forall k :: |name| < k < |t| ==> !MatchesAt(t, ServerEnvironments, k)
  {
    var t := name + "_" + x + rest;
    var n := |name|;
    SuffixesHaveNoUnderscore(x);
    forall k | n < k < |t| ensures !MatchesAt(t, ServerEnvironments, k) {
      if k < n + 1 + |x| {
        assert t[k] == x[k - n - 1];
      } else {
        assert t[k] == rest[k - n - 1 - |x|];
      }
      NoMatchWithoutUnderscore(t, k, ServerEnvironments);
    }
  }

  /** A token that is exactly one of the suffixes is read as an environment only. */
  lemma {:induction false} SplitBareSuffix(x: string)
    requires x in ServerEnvironments
    ensures SplitToken(x, ServerEnvironments) == BareSuffix(x)
  {
    assert forall i :: 0 <= i < |x| ==> x[i] != '_';
    forall k | 0 <= k < |x| ensures !MatchesAt(x, ServerEnvironments, k) {
      assert !SuffixFollows(x, k, ServerEnvironments[0]);
    }
  }
}
