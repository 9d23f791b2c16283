/** Resource tags: the matcher the network and template providers share, and the reading of a
    tag listing into a map. */
module Tags {

  type TagMap = map<string, string>

  /** What a selector's tags ask of a resource: every key present, with the value asked for
      unless that is the wildcard. */
  predicate MatchesTags(resource: TagMap, selector: TagMap) {
    forall k | k in selector :: k in resource && (selector[k] == "*" || resource[k] == selector[k])
  }

  /** Read as a selector, the tags of a resource ask for at least as much as any selector that it
      matches. */
  lemma MatchesThrough(resource: TagMap, other: TagMap, selector: TagMap)
    requires MatchesTags(resource, other) && MatchesTags(other, selector)
    ensures MatchesTags(resource, selector)
  {}

  /** The loop of matchesTags.  Go ranges over a map in an arbitrary order, so the next key is
      any key not seen yet: the answer does not depend on the choice. */
  method MatchTags(resource: TagMap, selector: TagMap) returns (matches: bool)
    ensures matches == MatchesTags(resource, selector)
    ensures matches <==> forall k | k in selector :: k in resource && (selector[k] == "*" || resource[k] == selector[k])
  {
    var pending := selector.Keys;
    while pending != {}
      invariant pending <= selector.Keys
      invariant forall k | k in selector && k !in pending ::
                  k in resource && (selector[k] == "*" || resource[k] == selector[k])
      decreases |pending|
    {
      var k :| k in pending;
      pending := pending - {k};
      if k !in resource {
        return false;
      }
      if selector[k] != "*" && resource[k] != selector[k] {
        return false;
      }
    }
    return true;
  }

  datatype Pair = Pair(key: string, value: string)

  /** The map a listing of tags stands for: a later pair overwrites an earlier one. */
  function FromPairs(pairs: seq<Pair>): TagMap {
    if pairs == [] then map[]
    else FromPairs(pairs[..|pairs|-1])[pairs[|pairs|-1].key := pairs[|pairs|-1].value]
  }

  /** The loop of getTags, getNetworkTags and getTemplateTags. */
  method GetTags(pairs: seq<Pair>) returns (tags: TagMap)
    ensures tags == FromPairs(pairs)
  {
    tags := map[];
    for i := 0 to |pairs|
      invariant tags == FromPairs(pairs[..i])
    {
      assert pairs[..i + 1][..i] == pairs[..i];
      tags := tags[pairs[i].key := pairs[i].value];
    }
    assert pairs[..|pairs|] == pairs;
  }

  /** `pairs` lists every tag of `tags` once, in some order. */
  ghost predicate IsListing(pairs: seq<Pair>, tags: TagMap) {
    && (forall i, j | 0 <= i < j < |pairs| :: pairs[i].key != pairs[j].key)
    && (forall i | 0 <= i < |pairs| :: pairs[i].key in tags && tags[pairs[i].key] == pairs[i].value)
    && (forall k | k in tags :: exists i | 0 <= i < |pairs| :: pairs[i].key == k)
  }

  /** The keys are those of the pairs, each with the value of the last pair that has it. */
  lemma {:induction false} LastPairCounts(pairs: seq<Pair>, k: string)
    ensures k in FromPairs(pairs) <==> exists i | 0 <= i < |pairs| :: pairs[i].key == k
    ensures forall i | 0 <= i < |pairs| && pairs[i].key == k && (forall j | i < j < |pairs| :: pairs[j].key != k) ::
              k in FromPairs(pairs) && FromPairs(pairs)[k] == pairs[i].value
  {
    if pairs != [] {
      var before := pairs[..|pairs|-1];
      assert forall i | 0 <= i < |before| :: before[i] == pairs[i];
      LastPairCounts(before, k);
    }
  }

  /** Reading back a listing gives the map that was listed, whatever the order. */
  lemma ListingRoundTrip(pairs: seq<Pair>, tags: TagMap)
    requires IsListing(pairs, tags)
    ensures FromPairs(pairs) == tags
  {
    forall k ensures k in tags <==> k in FromPairs(pairs) {
      LastPairCounts(pairs, k);
    }
    forall k | k in tags ensures FromPairs(pairs)[k] == tags[k] {
      LastPairCounts(pairs, k);
      var i :| 0 <= i < |pairs| && pairs[i].key == k;
    }
  }
}
