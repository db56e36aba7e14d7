/**
 * The classification rule of the data plane: a host is blocked when some
 * configured domain string occurs in it as a substring (Rust's `str::contains`
 * inside `iter().any`). Matching is on characters as stored: case-sensitive,
 * no normalisation, no wildcard syntax.
 */
module Matching {

  /** The two decisions the proxy can take on a request. */
  datatype Decision = Allow | Block {

    /** The text recorded in a log entry's `action` field. */
    function Label(): (s: string)
      ensures s == "BLOCK" <==> Block?
      ensures s == "ALLOW" <==> Allow?
    {
      if Block? then "BLOCK" else "ALLOW"
    }
  }

  /** `needle` occurs in `hay` starting at position `i`. */
  ghost predicate OccursAt(hay: string, needle: string, i: int)
  {
    0 <= i && i + |needle| <= |hay| && hay[i..i + |needle|] == needle
  }

  /**
   * Rust's `hay.contains(needle)` for a string pattern: try every starting
   * position from the left. The empty needle occurs in every string.
   */
  predicate Contains(hay: string, needle: string)
    ensures Contains(hay, needle) ==> |needle| <= |hay|
    decreases |hay|
  {
    needle <= hay || (|hay| > 0 && Contains(hay[1..], needle))
  }

  /** The search agrees with the positional definition of "is a substring of". */
  lemma {:induction false} ContainsIff(hay: string, needle: string)
    ensures Contains(hay, needle) <==> exists i :: OccursAt(hay, needle, i)
    decreases |hay|
  {
    if needle <= hay {
      assert OccursAt(hay, needle, 0);
    } else if |hay| > 0 {
      var tail := hay[1..];
      ContainsIff(tail, needle);
      if Contains(tail, needle) {
        var j :| OccursAt(tail, needle, j);
        assert hay[j + 1..j + 1 + |needle|] == tail[j..j + |needle|];
        assert OccursAt(hay, needle, j + 1);
      }
      if i :| OccursAt(hay, needle, i) {
        if i > 0 {
          assert tail[i - 1..i - 1 + |needle|] == hay[i..i + |needle|];
          assert OccursAt(tail, needle, i - 1);
        }
      }
    }
  }

  /** Whatever is contained in a host is contained in any host that embeds it. */
  lemma ContainsEmbedded(hay: string, needle: string, before: string, after: string)
    requires Contains(hay, needle)
    ensures Contains(before + hay + after, needle)
  {
    ContainsIff(hay, needle);
    var i :| OccursAt(hay, needle, i);
    var big := before + hay + after;
    assert big[|before| + i..|before| + i + |needle|] == hay[i..i + |needle|];
    assert OccursAt(big, needle, |before| + i);
    ContainsIff(big, needle);
  }

  /**
   * `domains.iter().any(|d| host.contains(d))`: true when some configured
   * domain occurs in the host. The search stops at the first match.
   */
  function AnyContained(domains: seq<string>, host: string): (r: bool)
    ensures r <==> exists d :: d in domains && Contains(host, d)
  {
    if |domains| == 0 then false
    else if Contains(host, domains[0]) then
      assert domains[0] in domains;
      true
    else
      var rest := domains[1..];
      assert forall d :: d in domains && d != domains[0] ==> d in rest;
      assert forall d :: d in rest ==> d in domains;
      AnyContained(rest, host)
  }

  /** The decision for `host` under the blocklist `domains`. */
  function Classify(domains: seq<string>, host: string): (r: Decision)
    ensures r == Block <==> exists d :: d in domains && Contains(host, d)
    ensures r == Allow <==> forall d :: d in domains ==> !Contains(host, d)
  {
    if AnyContained(domains, host) then Block else Allow
  }

  /** The decision depends only on which strings are configured, not on their order or repetition. */
  lemma ClassifyIgnoresOrderAndDuplicates(d1: seq<string>, d2: seq<string>, host: string)
    requires forall d :: d in d1 <==> d in d2
    ensures Classify(d1, host) == Classify(d2, host)
  {
  }

  /** An empty blocklist allows every host. */
  lemma EmptyBlocklistAllows(host: string)
    ensures Classify([], host) == Allow
  {
  }

  /** A configured empty string blocks every host. */
  lemma EmptyDomainBlocksEverything(domains: seq<string>, host: string)
    requires "" in domains
    ensures Classify(domains, host) == Block
  {
    assert Contains(host, "");
  }

  /** Adding a domain blocks exactly the hosts it occurs in, on top of those already blocked. */
  lemma AddingDomain(domains: seq<string>, extra: string, host: string)
    ensures Classify(domains + [extra], host) == Block
            <==> Classify(domains, host) == Block || Contains(host, extra)
  {
    assert extra in domains + [extra];
    assert forall d :: d in domains + [extra] <==> d in domains || d == extra;
  }

  /** A domain longer than the host never matches it. */
  lemma LongerDomainNeverMatches(domains: seq<string>, host: string)
    requires forall d :: d in domains ==> |d| > |host|
    ensures Classify(domains, host) == Allow
  {
  }

  /** Every host that embeds a blocked host (a subdomain of it, for one) is blocked too. */
  lemma BlockedHostsAreUpwardClosed(domains: seq<string>, host: string, before: string, after: string)
    requires Classify(domains, host) == Block
    ensures Classify(domains, before + host + after) == Block
  {
    var d :| d in domains && Contains(host, d);
    ContainsEmbedded(host, d, before, after);
  }
}
