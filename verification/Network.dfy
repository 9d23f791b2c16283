/** The network provider: listing the networks of a zone through the cache and resolving network
    selector terms against the listing. */
module NetworkProvider {
  import opened Lists
  import opened Tags
  import opened Resolution
  import opened TtlCache
  import L = ListCache

  datatype Network = Network(
    id: string, name: string, zone: string, zoneId: string, kind: string, state: string,
    cidr: string, gateway: string, tags: TagMap)

  datatype Term = Term(tags: TagMap, id: string, name: string)

  datatype Error = ListFailed | NothingMatched

  datatype Result<+T> = Ok(value: T) | Err(error: Error)

  // ----- the CloudStack side -----

  /** A network as the API describes it, without its tags. */
  datatype ApiNetwork = ApiNetwork(
    id: string, name: string, zoneName: string, zoneId: string, kind: string, state: string,
    cidr: string, gateway: string)

  /** What the API answers: a zone name, a zone id or a resource id that is missing stands for a
      call that fails. */
  datatype Api = Api(zoneIds: map<string, string>, networks: map<string, seq<ApiNetwork>>, tags: map<string, seq<Pair>>)

  /** A network whose tags cannot be read is listed without tags. */
  function WithTags(api: Api, n: ApiNetwork): Network {
    Network(n.id, n.name, n.zoneName, n.zoneId, n.kind, n.state, n.cidr, n.gateway,
            if n.id in api.tags then FromPairs(api.tags[n.id]) else map[])
  }

  function Tagger(api: Api): ApiNetwork -> Network {
    n => WithTags(api, n)
  }

  /** The listing a fetch produces, or None when the zone lookup or the list call fails. */
  function Fetched(api: Api, zone: string): Option<seq<Network>> {
    if zone !in api.zoneIds || api.zoneIds[zone] !in api.networks then None
    else Some(Map(api.networks[api.zoneIds[zone]], Tagger(api)))
  }

  // ----- selector terms -----

  function ById(): Network -> string { (n: Network) => n.id }
  function ByName(): Network -> string { (n: Network) => n.name }
  function HasId(id: string): Network -> bool { (n: Network) => n.id == id }
  function HasName(name: string): Network -> bool { (n: Network) => n.name == name }
  function HasTags(tags: TagMap): Network -> bool { (n: Network) => MatchesTags(n.tags, tags) }
  function Usable(): Network -> bool { (n: Network) => n.state == "Implemented" || n.state == "Setup" }

  /** What one term contributes: the first network with its id, else the first with its name,
      else every network that matches its tags. */
  function Select(all: seq<Network>, t: Term): seq<Network> {
    if t.id != "" && Find(all, HasId(t.id)).Some? then [Find(all, HasId(t.id)).value]
    else if t.name != "" && Find(all, HasName(t.name)).Some? then [Find(all, HasName(t.name)).value]
    else if |t.tags| > 0 then Filter(all, HasTags(t.tags))
    else []
  }

  function Selector(all: seq<Network>): Term -> seq<Network> { t => Select(all, t) }

  function Resolve(all: seq<Network>, terms: seq<Term>): seq<Network> {
    Resolved(FlatMap(terms, Selector(all)), ById(), Usable())
  }

  /** What a caller gets for its terms from a listing, if there is one. */
  function Answered(listed: Option<seq<Network>>, terms: seq<Term>): Result<seq<Network>> {
    if listed.None? then Err(ListFailed)
    else if Resolve(listed.value, terms) == [] then Err(NothingMatched)
    else Ok(Resolve(listed.value, terms))
  }

  class Provider {
    var cache: Cache<seq<Network>>

    constructor ()
      ensures cache == map[]
    {
      cache := map[];
    }

    static function CacheKey(zone: string): string { "networks-" + zone }

    /** List, when no other caller interferes: ListCache treats the interleavings. */
    method List(api: Api, zone: string, now: int) returns (r: Option<seq<Network>>)
      modifies this
      ensures (r, cache) == ReadThrough(old(cache), CacheKey(zone), now, Fetched(api, zone))
    {
      var key := CacheKey(zone);
      if Lookup(cache, key, now).Some? {
        return Lookup(cache, key, now);
      }
      if zone !in api.zoneIds {
        return None;
      }
      var zoneId := api.zoneIds[zone];
      if zoneId !in api.networks {
        return None;
      }
      var response := api.networks[zoneId];
      var networks: seq<Network> := [];
      for i := 0 to |response|
        invariant networks == Map(response[..i], Tagger(api))
        invariant cache == old(cache)
      {
        var n := response[i];
        var tags: TagMap := map[];
        if n.id in api.tags {
          tags := GetTags(api.tags[n.id]);
        }
        networks := networks + [Network(n.id, n.name, n.zoneName, n.zoneId, n.kind, n.state, n.cidr, n.gateway, tags)];
      }
      assert response[..|response|] == response;
      cache := cache[key := Entry(networks, now)];
      return Some(networks);
    }

    /** ResolveNetworks: fails exactly when the listing fails or nothing usable is selected. */
    method ResolveNetworks(api: Api, terms: seq<Term>, zone: string, now: int) returns (r: Result<seq<Network>>)
      modifies this
      ensures cache == ReadThrough(old(cache), CacheKey(zone), now, Fetched(api, zone)).1
      ensures r == Answered(ReadThrough(old(cache), CacheKey(zone), now, Fetched(api, zone)).0, terms)
    {
      var listed := List(api, zone, now);
      if listed.None? {
        return Err(ListFailed);
      }
      var all := listed.value;
      var matched: seq<Network> := [];
      for i := 0 to |terms|
        invariant matched == FlatMap(terms[..i], Selector(all))
        invariant cache == ReadThrough(old(cache), CacheKey(zone), now, Fetched(api, zone)).1
      {
        var term := terms[i];
        Snoc(terms, i);
        if term.id != "" {
          var found := Find(all, HasId(term.id));
          if found.Some? {
            matched := matched + [found.value];
            continue;
          }
        }
        if term.name != "" {
          var found := Find(all, HasName(term.name));
          if found.Some? {
            matched := matched + [found.value];
            continue;
          }
        }
        if |term.tags| > 0 {
          matched := matched + Filter(all, HasTags(term.tags));
        }
      }
      assert terms[..|terms|] == terms;
      matched := UniqBy(matched, ById());
      matched := Filter(matched, Usable());
      if |matched| == 0 {
        return Err(NothingMatched);
      }
      return Ok(matched);
    }
  }

  // ----- zones -----

  lemma ZoneKeysApart(a: string, b: string)
    ensures Provider.CacheKey(a) == Provider.CacheKey(b) <==> a == b
  {
    SameTail("networks-", a, b);
  }

  /** Listing one zone never changes what listing another zone answers. */
  lemma ZonesAreApart(cache: Cache<seq<Network>>, a: string, b: string, then_: int, now: int, before: Api, api: Api)
    requires a != b
    ensures var after := ReadThrough(cache, Provider.CacheKey(a), then_, Fetched(before, a)).1;
            ReadThrough(after, Provider.CacheKey(b), now, Fetched(api, b)).0 ==
            ReadThrough(cache, Provider.CacheKey(b), now, Fetched(api, b)).0
  {
    ZoneKeysApart(a, b);
    KeysAreApart(cache, Provider.CacheKey(a), Provider.CacheKey(b), then_, now, Fetched(before, a), Fetched(api, b));
  }

  // ----- what the resolution means -----

  /** An id that is listed decides alone, then a name that is listed, then the tags; the others are not looked at. */
  lemma SelectMeaning(all: seq<Network>, t: Term)
    ensures var byId, byName := t.id != "" && HasKey(all, ById(), t.id), t.name != "" && HasKey(all, ByName(), t.name);
            && (byId ==> IsFirst(all, ById(), t.id, Select(all, t)))
            && (!byId && byName ==> IsFirst(all, ByName(), t.name, Select(all, t)))
            && (!byId && !byName ==> forall x :: x in Select(all, t) <==> x in all && |t.tags| > 0 && MatchesTags(x.tags, t.tags))
  {
    FindIsFirst(all, ById(), HasId(t.id), t.id);
    FindIsFirst(all, ByName(), HasName(t.name), t.name);
    forall x ensures x in Filter(all, HasTags(t.tags)) <==> x in all && MatchesTags(x.tags, t.tags) {
      FilterMembers(all, HasTags(t.tags), x);
    }
  }

  lemma SelectsListed(all: seq<Network>)
    ensures SelectsFrom(all, Selector(all))
  {
    forall t, y | y in Selector(all)(t) ensures y in all {
      FilterMembers(all, HasTags(t.tags), y);
    }
  }

  /** A caller gets the one list that keeps, in candidate order, the first candidate of every id if it
      is usable, unless that is empty or there is no listing.  Usable are the
      networks: those in state Implemented or Setup. */
  lemma AnsweredIff(listed: Option<seq<Network>>, terms: seq<Term>, id: Network -> string, usable: Network -> bool, r: seq<Network>)
    requires forall n :: id(n) == n.id && (usable(n) <==> n.state == "Implemented" || n.state == "Setup")
    ensures Answered(listed, terms) == Ok(r) <==>
            listed.Some? && r != [] && KeepsFirstUsable(FlatMap(terms, Selector(listed.value)), id, usable, r)
    ensures Answered(listed, terms) == Err(NothingMatched) <==>
            listed.Some? && KeepsFirstUsable(FlatMap(terms, Selector(listed.value)), id, usable, [])
    ensures Answered(listed, terms) == Err(ListFailed) <==> listed.None?
  {
    if listed.Some? {
      var candidates := FlatMap(terms, Selector(listed.value));
      ResolveIff(listed.value, terms, r);
      ResolveIff(listed.value, terms, []);
      KeepsAlike(candidates, ById(), id, Usable(), usable, r);
      KeepsAlike(candidates, ById(), id, Usable(), usable, []);
    }
  }

  lemma UsableMeans()
    ensures forall n :: ById()(n) == n.id && (Usable()(n) <==> n.state == "Implemented" || n.state == "Setup")
  {}

  lemma ResolveIff(all: seq<Network>, terms: seq<Term>, r: seq<Network>)
    ensures r == Resolve(all, terms) <==> KeepsFirstUsable(FlatMap(terms, Selector(all)), ById(), Usable(), r)
  {
    ResolvedIff(FlatMap(terms, Selector(all)), ById(), Usable(), r);
  }

  /** Appending terms only extends the result. */
  lemma AppendKeepsChoices(all: seq<Network>, terms: seq<Term>, extra: seq<Term>)
    ensures Resolve(all, terms) <= Resolve(all, terms + extra)
    ensures Resolve(all, terms) != [] ==> Resolve(all, terms + extra)[0] == Resolve(all, terms)[0]
  {
    TermsAppend(terms, extra, Selector(all), ById(), Usable());
  }

  lemma AppendKeepsHead(listed: Option<seq<Network>>, terms: seq<Term>, extra: seq<Term>)
    requires Answered(listed, terms).Ok?
    ensures Answered(listed, terms).value != [] && Answered(listed, terms + extra).Ok? && Answered(listed, terms + extra).value != []
    ensures Answered(listed, terms + extra).value[0] == Answered(listed, terms).value[0]
  {
    AppendKeepsChoices(listed.value, terms, extra);
  }

  lemma ResolveBy(all: seq<Network>, terms: seq<Term>, x: Network)
    requires UniqueBy(all, ById())
    ensures x in Resolve(all, terms) <==> (x.state == "Implemented" || x.state == "Setup") && exists t | t in terms :: x in Select(all, t)
  {
    SelectsListed(all);
    ResolvedByTerms(all, terms, Selector(all), ById(), Usable(), x);
    assert forall t :: Selector(all)(t) == Select(all, t);
  }

  // ----- when the order of the terms can matter -----

  /** Some term can make this network the first candidate with its id: its id, its name, or its
      own tags, if no earlier network with its id matches those as well. */
  ghost predicate Reachable(all: seq<Network>, i: nat)
    requires i < |all|
  {
    || (all[i].id != "" && First(all, ById(), i))
    || (all[i].name != "" && First(all, ByName(), i))
    || (|all[i].tags| > 0 && forall j | 0 <= j < i && all[j].id == all[i].id :: !MatchesTags(all[j].tags, all[i].tags))
  }

  /** No usable network has a rival with its id within the reach of the terms. */
  ghost predicate NoRivals(all: seq<Network>) {
    forall i: nat, j: nat | i < |all| && j < |all| && Reachable(all, i) && Reachable(all, j)
      && all[i].id == all[j].id && Usable()(all[i]) :: all[i] == all[j]
  }

  ghost predicate ReachedAs(all: seq<Network>, x: Network) {
    exists i: nat :: i < |all| && Reachable(all, i) && all[i] == x
  }

  lemma TagsReach(all: seq<Network>, tags: TagMap, x: Network)
    requires |tags| > 0 && Leads(Filter(all, HasTags(tags)), ById(), x)
    ensures ReachedAs(all, x)
  {
    FilterLeads(all, HasTags(tags), ById(), x);
    var i: nat :| i < |all| && all[i] == x && HasTags(tags)(x)
                  && forall j | 0 <= j < i && HasTags(tags)(all[j]) :: ById()(all[j]) != ById()(x);
    var k :| k in tags;
    assert k in x.tags;
    forall j | 0 <= j < i && all[j].id == x.id ensures !MatchesTags(all[j].tags, x.tags) {
      assert ById()(all[j]) == ById()(x);
      if MatchesTags(all[j].tags, x.tags) {
        MatchesThrough(all[j].tags, x.tags, tags);
      }
    }
  }

  lemma LeaderIsReachable(all: seq<Network>, t: Term, x: Network)
    requires Leads(Select(all, t), ById(), x)
    ensures ReachedAs(all, x)
  {
    FindIsFirst(all, ById(), HasId(t.id), t.id);
    FindIsFirst(all, ByName(), HasName(t.name), t.name);
    if t.id != "" && HasKey(all, ById(), t.id) {
      var i: nat :| i < |all| && [x] == [all[i]] && ById()(all[i]) == t.id && forall j | 0 <= j < i :: ById()(all[j]) != t.id;
      assert Reachable(all, i);
    } else if t.name != "" && HasKey(all, ByName(), t.name) {
      var i: nat :| i < |all| && [x] == [all[i]] && ByName()(all[i]) == t.name && forall j | 0 <= j < i :: ByName()(all[j]) != t.name;
      assert Reachable(all, i);
    } else {
      TagsReach(all, t.tags, x);
    }
  }

  lemma LeadsAlone(x: Network)
    ensures Leads([x], ById(), x)
  {
    assert First([x], ById(), 0);
  }

  lemma ReachableLeads(all: seq<Network>, i: nat) returns (t: Term)
    requires i < |all| && Reachable(all, i)
    ensures Leads(Select(all, t), ById(), all[i])
  {
    var x := all[i];
    LeadsAlone(x);
    if x.id != "" && First(all, ById(), i) {
      t := Term(map[], x.id, "");
      assert HasId(x.id)(x) && forall j | 0 <= j < i :: ById()(all[j]) != ById()(x);
    } else if x.name != "" && First(all, ByName(), i) {
      t := Term(map[], "", x.name);
      assert HasName(x.name)(x) && forall j | 0 <= j < i :: ByName()(all[j]) != ByName()(x);
    } else {
      t := Term(x.tags, "", "");
      assert HasTags(x.tags)(x);
      forall j | 0 <= j < i && HasTags(x.tags)(all[j]) ensures ById()(all[j]) != ById()(x) {}
      FilterLeads(all, HasTags(x.tags), ById(), x);
    }
  }

  /** Whatever the listing, the order of the terms has no part in which networks are resolved, for
      all lists of terms, exactly when no usable network has a rival with its id. */
  lemma OrderIrrelevantIff(all: seq<Network>)
    ensures (forall terms, other | SameMembers(terms, other) :: SameMembers(Resolve(all, terms), Resolve(all, other)))
            <==> NoRivals(all)
  {
    OrderIff(Selector(all), ById(), Usable());
    assert forall terms :: Resolve(all, terms) == Resolved(FlatMap(terms, Selector(all)), ById(), Usable());
    if LeadersAgree(Selector(all), ById(), Usable()) {
      forall i: nat, j: nat | i < |all| && j < |all| && Reachable(all, i) && Reachable(all, j)
        && all[i].id == all[j].id && Usable()(all[i]) ensures all[i] == all[j]
      {
        var s := ReachableLeads(all, i);
        var t := ReachableLeads(all, j);
        assert Leads(Selector(all)(s), ById(), all[i]) && Leads(Selector(all)(t), ById(), all[j]);
        assert ById()(all[i]) == ById()(all[j]);
      }
    }
    if NoRivals(all) {
      forall s, t, x, y | Leads(Selector(all)(s), ById(), x) && Leads(Selector(all)(t), ById(), y)
        && ById()(x) == ById()(y) && Usable()(x) ensures x == y
      {
        LeaderIsReachable(all, s, x);
        LeaderIsReachable(all, t, y);
      }
    }
  }

  /** With unique ids, terms that are the same as a set resolve the same networks, and fail alike. */
  lemma OrderIrrelevant(all: seq<Network>, terms: seq<Term>, other: seq<Term>)
    requires UniqueBy(all, ById()) && SameMembers(terms, other)
    ensures SameMembers(Resolve(all, terms), Resolve(all, other))
    ensures Resolve(all, terms) == [] <==> Resolve(all, other) == []
  {
    forall i: nat, j: nat | i < |all| && j < |all| && all[i].id == all[j].id ensures all[i] == all[j] {
      assert ById()(all[i]) == ById()(all[j]);
    }
    OrderIrrelevantIff(all);
    EmptyTogether(Resolve(all, terms), Resolve(all, other));
  }

  // ----- listings assembled while the world changes -----

  datatype Ask = AskZone(zone: string) | AskNetworks(zoneId: string) | AskTags(id: string)

  datatype ApiAnswer = ZoneId(id: string) | Networks(list: seq<ApiNetwork>) | TagList(pairs: seq<Pair>)

  type Heard = L.Heard<Ask, ApiAnswer>

  function Reply(api: Api, ask: Ask): Option<ApiAnswer> {
    match ask
    case AskZone(zone) => if zone in api.zoneIds then Some(ZoneId(api.zoneIds[zone])) else None
    case AskNetworks(zoneId) => if zoneId in api.networks then Some(Networks(api.networks[zoneId])) else None
    case AskTags(id) => if id in api.tags then Some(TagList(api.tags[id])) else None
  }

  ghost function World(api: Api): imap<Ask, ApiAnswer> {
    imap ask: Ask | Reply(api, ask).Some? :: Reply(api, ask).value
  }

  function Joined(n: ApiNetwork, answer: Option<ApiAnswer>): Network {
    Network(n.id, n.name, n.zoneName, n.zoneId, n.kind, n.state, n.cidr, n.gateway,
            if answer.Some? && answer.value.TagList? then FromPairs(answer.value.pairs) else map[])
  }

  /** The calls a fetch makes up to the listing: the zone and its networks. */
  predicate HeardNetworks(key: string, heard: seq<Heard>) {
    && |heard| >= 2
    && heard[0].ask.AskZone? && Provider.CacheKey(heard[0].ask.zone) == key
    && heard[0].answer.Some? && heard[0].answer.value.ZoneId?
    && heard[1].ask == AskNetworks(heard[0].answer.value.id)
    && heard[1].answer.Some? && heard[1].answer.value.Networks?
  }

  /** What List makes of its API calls: the listing is complete once the tags of every network have
      been asked for, whatever came of that. */
  function Built(key: string, heard: seq<Heard>): Option<seq<Network>> {
    if !HeardNetworks(key, heard) then None
    else
      var ns := heard[1].answer.value.list;
      if |heard| != 2 + |ns| || exists i | 0 <= i < |ns| :: heard[2 + i].ask != AskTags(ns[i].id) then None
      else Some(seq(|ns|, i requires 0 <= i < |ns| => Joined(ns[i], heard[2 + i].answer)))
  }

  ghost function Code(): L.Code<Ask, ApiAnswer, seq<Network>, seq<Term>, Result<seq<Network>>> {
    L.Code((key: string, heard: seq<Heard>) => Built(key, heard),
           (all: seq<Network>, terms: seq<Term>) => Answered(Some(all), terms))
  }

  function TagAsks(ns: seq<ApiNetwork>): seq<Ask> {
    seq(|ns|, i requires 0 <= i < |ns| => AskTags(ns[i].id))
  }

  /** The calls List makes when the world stands still. */
  function Asks(api: Api, zone: string): seq<Ask> {
    if zone !in api.zoneIds then [AskZone(zone)]
    else
      var zoneId := api.zoneIds[zone];
      [AskZone(zone), AskNetworks(zoneId)] + if zoneId in api.networks then TagAsks(api.networks[zoneId]) else []
  }

  /** In a world that stands still these calls bring what List fetches, so that a call by itself, as
      AloneIsReadThrough of ListCache describes it, is the method List. */
  lemma StillWorldIsFetched(api: Api, zone: string, now: int)
    ensures Built(Provider.CacheKey(zone), L.Answers(World(api), Asks(api, zone), now)) == Fetched(api, zone)
  {
    var heard := L.Answers(World(api), Asks(api, zone), now);
    assert heard[0] == L.Heard(AskZone(zone), Reply(api, AskZone(zone)), now);
    if zone in api.zoneIds {
      var zoneId := api.zoneIds[zone];
      assert heard[1] == L.Heard(AskNetworks(zoneId), Reply(api, AskNetworks(zoneId)), now);
      if zoneId in api.networks {
        var ns := api.networks[zoneId];
        forall i | 0 <= i < |ns|
          ensures heard[2 + i].ask == AskTags(ns[i].id) && Joined(ns[i], heard[2 + i].answer) == Tagger(api)(ns[i])
        {
          assert heard[2 + i] == L.Heard(AskTags(ns[i].id), Reply(api, AskTags(ns[i].id)), now);
        }
        assert Built(Provider.CacheKey(zone), heard).value == Map(ns, Tagger(api));
      }
    }
  }

  /** `x` is the listed network with tags that the API would have answered within that time, or none. */
  ghost predicate TaggedBetween(past: seq<L.Epoch<Ask, ApiAnswer>>, from: int, to: int, n: ApiNetwork, x: Network) {
    && x.id == n.id && x.name == n.name && x.zone == n.zoneName && x.zoneId == n.zoneId && x.kind == n.kind
    && x.state == n.state && x.cidr == n.cidr && x.gateway == n.gateway
    && (x.tags == map[] ||
        exists pairs :: x.tags == FromPairs(pairs) && L.HeldBetween(past, from, to, AskTags(n.id), TagList(pairs)))
  }

  /** The listing is made of a zone lookup, a list of networks and tags for each of them, all of which
      the API would have answered within that time. */
  ghost predicate MadeOfPieces(past: seq<L.Epoch<Ask, ApiAnswer>>, from: int, to: int, listing: seq<Network>,
                               zone: string, zoneId: string, listed: seq<ApiNetwork>) {
    && L.HeldBetween(past, from, to, AskZone(zone), ZoneId(zoneId))
    && L.HeldBetween(past, from, to, AskNetworks(zoneId), Networks(listed))
    && |listing| == |listed|
    && forall i | 0 <= i < |listed| :: TaggedBetween(past, from, to, listed[i], listing[i])
  }

  lemma BuiltOfPieces(past: seq<L.Epoch<Ask, ApiAnswer>>, from: int, to: int, zone: string, heard: seq<Heard>)
    returns (zoneId: string, listed: seq<ApiNetwork>)
    requires Built(Provider.CacheKey(zone), heard).Some? && L.HeardOk(past, heard, from, to)
    ensures MadeOfPieces(past, from, to, Built(Provider.CacheKey(zone), heard).value, zone, zoneId, listed)
  {
    ZoneKeysApart(zone, heard[0].ask.zone);
    zoneId, listed := heard[0].answer.value.id, heard[1].answer.value.list;
    L.PieceHeld(past, heard, 0, from, to);
    L.PieceHeld(past, heard, 1, from, to);
    forall i | 0 <= i < |listed| ensures TaggedBetween(past, from, to, listed[i], Built(Provider.CacheKey(zone), heard).value[i]) {
      var h := heard[2 + i];
      assert h.ask == AskTags(listed[i].id) && Built(Provider.CacheKey(zone), heard).value[i] == Joined(listed[i], h.answer);
      if h.answer.Some? {
        L.PieceHeld(past, heard, 2 + i, from, to);
      }
    }
  }

  /** In every interleaving a caller gets what its own terms resolve to in a listing of its own zone made
      of recent pieces: each is what the API would have answered at some moment of one fetch, which was stored
      no more than one TTL before the reply. */
  lemma ListingsAreRecentPieces(now: int, world: imap<Ask, ApiAnswer>, steps: seq<L.Step<Ask, ApiAnswer, seq<Term>>>, id: nat,
                                zone: string)
    returns (f: L.Fetch<Ask, ApiAnswer, seq<Network>>, zoneId: string, listed: seq<ApiNetwork>)
    requires L.Runs(Code(), L.Start(now, world), steps)
    requires var s := L.After(Code(), L.Start(now, world), steps);
             && id in s.calls && s.calls[id].pc.Returned? && s.calls[id].pc.reply.Got?
             && s.calls[id].key == Provider.CacheKey(zone)
    ensures var s := L.After(Code(), L.Start(now, world), steps);
            var (c, reply) := (s.calls[id], s.calls[id].pc.reply);
            && reply.result == Answered(Some(reply.value), c.query)
            && f in s.fetches && f.at <= reply.at <= f.at + TTL
            && MadeOfPieces(s.past, f.start, f.at, reply.value, zone, zoneId, listed)
  {
    f := L.RepliesRefineAsking(Code(), now, world, steps, id);
    zoneId, listed := BuiltOfPieces(L.After(Code(), L.Start(now, world), steps).past, f.start, f.at, zone, f.heard);
  }

  // ----- the documented reading: the fields of a term are ANDed -----

  predicate Satisfies(n: Network, t: Term) {
    (t.id != "" ==> n.id == t.id) && (t.name != "" ==> n.name == t.name) && MatchesTags(n.tags, t.tags)
  }

  function Satisfier(t: Term): Network -> bool { n => Satisfies(n, t) }

  /** What the API documentation says a term selects. */
  function Documented(all: seq<Network>, t: Term): seq<Network> { Filter(all, Satisfier(t)) }

  /** Exactly one of the three fields is set. */
  predicate OneField(t: Term) {
    || (t.id != "" && t.name == "" && |t.tags| == 0)
    || (t.id == "" && t.name != "" && |t.tags| == 0)
    || (t.id == "" && t.name == "" && |t.tags| > 0)
  }

  ghost predicate AsDocumented(t: Term) {
    forall all | UniqueBy(all, ById()) && UniqueBy(all, ByName()) :: Select(all, t) == Documented(all, t)
  }

  ghost predicate AsDocumentedAnyNames(t: Term) {
    forall all | UniqueBy(all, ById()) :: Select(all, t) == Documented(all, t)
  }

  lemma OneFieldAgrees(all: seq<Network>, t: Term)
    requires OneField(t) && UniqueBy(all, ById()) && (t.name != "" ==> UniqueBy(all, ByName()))
    ensures Select(all, t) == Documented(all, t)
  {
    if t.id != "" {
      FindIsFilter(all, ById(), HasId(t.id), t.id);
      FilterSame(all, HasId(t.id), Satisfier(t));
    } else if t.name != "" {
      FindIsFilter(all, ByName(), HasName(t.name), t.name);
      FilterSame(all, HasName(t.name), Satisfier(t));
    } else {
      FilterSame(all, HasTags(t.tags), Satisfier(t));
    }
  }

  function Sample(id: string, name: string): Network {
    Network(id, name, "", "", "", "Implemented", "", "", map[])
  }

  /** A term that sets no field, or more than one, disagrees with its documentation on a listing
      of a single network. */
  lemma OtherFieldsDisagree(t: Term) returns (all: seq<Network>)
    requires !OneField(t)
    ensures |all| == 1 && Select(all, t) != Documented(all, t)
  {
    var n := Sample(t.id, if t.id != "" && t.name != "" then t.name + "x" else t.name);
    all := [n];
    assert all[..0] == [];
    if |t.tags| > 0 {
      var k :| k in t.tags;
      assert !MatchesTags(n.tags, t.tags);
    }
    if t.id == "" && t.name == "" {
      assert Satisfies(n, t);
      FilterOne(all, Satisfier(t), 0);
    } else {
      assert t.id != "" ==> HasId(t.id)(n);
      assert t.name == n.name ==> HasName(t.name)(n);
      assert !Satisfies(n, t);
      FilterNone(all, Satisfier(t));
    }
  }

  /** The fallback from id to name to tags reads a term as documented, on every listing with unique
      ids and names, exactly when the term sets one field. */
  lemma DocumentedIff(t: Term)
    ensures AsDocumented(t) <==> OneField(t)
  {
    if OneField(t) {
      forall all | UniqueBy(all, ById()) && UniqueBy(all, ByName()) ensures Select(all, t) == Documented(all, t) {
        OneFieldAgrees(all, t);
      }
    } else {
      var all := OtherFieldsDisagree(t);
      assert UniqueBy(all, ById()) && UniqueBy(all, ByName());
    }
  }

  /** Where names may repeat, naming a network is not enough either: only the first is taken. */
  lemma DocumentedAnyNamesIff(t: Term)
    ensures AsDocumentedAnyNames(t) <==> OneField(t) && t.name == ""
  {
    if !OneField(t) {
      var all := OtherFieldsDisagree(t);
      assert UniqueBy(all, ById());
    } else if t.name != "" {
      var a, b := Sample("1", t.name), Sample("2", t.name);
      var all := [a, b];
      assert UniqueBy(all, ById());
      assert all[..1] == [a] && [a][..0] == [];
      assert Satisfies(a, t) && Satisfies(b, t);
      assert all == [a] + [b];
      FilterSnoc([a], b, Satisfier(t));
      FilterOne([a], Satisfier(t), 0);
      assert HasName(t.name)(all[0]);
      assert |Select(all, t)| == 1;
    } else {
      forall all | UniqueBy(all, ById()) ensures Select(all, t) == Documented(all, t) {
        OneFieldAgrees(all, t);
      }
    }
  }

  /** Terms of one field each resolve to the documented OR of their requirements. */
  lemma DocumentedResolve(all: seq<Network>, terms: seq<Term>, x: Network)
    requires UniqueBy(all, ById()) && UniqueBy(all, ByName())
    requires forall t | t in terms :: OneField(t)
    ensures x in Resolve(all, terms) <==> x in all && (x.state == "Implemented" || x.state == "Setup") && exists t | t in terms :: Satisfies(x, t)
  {
    ResolveBy(all, terms, x);
    forall t | t in terms ensures x in Select(all, t) <==> x in all && Satisfies(x, t) {
      OneFieldAgrees(all, t);
      FilterMembers(all, Satisfier(t), x);
    }
  }

  // ----- the limits of the laws -----

  /** The order of the terms may still change which network is first. */
  lemma HeadMayChange() returns (all: seq<Network>, s: Term, t: Term)
    ensures UniqueBy(all, ById()) && UniqueBy(all, ByName())
    ensures |all| == 2 && Resolve(all, [s, t]) == all && Resolve(all, [t, s]) == [all[1], all[0]]
  {
    var a, b := Sample("1", "a"), Sample("2", "b");
    all, s, t := [a, b], Term(map[], "1", ""), Term(map[], "2", "");
    assert Usable()(a) && Usable()(b) && ById()(a) != ById()(b) && ByName()(a) != ByName()(b);
    ResolveTwoIds(all, s, t, 0, 1);
    ResolveTwoIds(all, t, s, 1, 0);
  }

  lemma ResolveTwoIds(all: seq<Network>, s: Term, t: Term, i: nat, j: nat)
    requires UniqueBy(all, ById()) && i < |all| && j < |all| && s.id != "" && t.id != "" && s.id != t.id
    requires all[i].id == s.id && all[j].id == t.id && Usable()(all[i]) && Usable()(all[j])
    ensures Resolve(all, [s, t]) == [all[i], all[j]]
  {
    Pick(all, s, i);
    Pick(all, t, j);
    ResolveTwo(all, s, t, all[i], all[j]);
  }

  /** With a repeated id the order decides which of the two networks is judged, and with it
      whether anything is resolved at all. */
  lemma RepeatedIdsMatter() returns (all: seq<Network>, s: Term, t: Term)
    ensures |all| == 2 && Resolve(all, [s, t]) == [all[0]] && Resolve(all, [t, s]) == []
  {
    var a, b := Sample("1", "a"), Sample("1", "b").(state := "Shutdown");
    all, s, t := [a, b], Term(map[], "", "a"), Term(map[], "", "b");
    assert all[..1] == [a] && [a][..0] == [];
    assert Find(all, HasName("a")) == Some(a) && Find(all, HasName("b")) == Some(b);
    ResolveTwo(all, s, t, a, b);
    ResolveTwo(all, t, s, b, a);
  }

  lemma Pick(all: seq<Network>, t: Term, i: nat)
    requires i < |all| && t.id != "" && all[i].id == t.id && UniqueBy(all, ById())
    ensures Select(all, t) == [all[i]]
  {
    assert HasId(t.id)(all[i]);
    assert forall j | 0 <= j < |all| && j != i :: ById()(all[j]) != ById()(all[i]);
  }

  lemma ResolveTwo(all: seq<Network>, s: Term, t: Term, a: Network, b: Network)
    requires Select(all, s) == [a] && Select(all, t) == [b]
    ensures Resolve(all, [s, t]) ==
            (if Usable()(a) then [a] else []) + if a.id != b.id && Usable()(b) then [b] else []
  {
    FlatMapTwo(s, t, Selector(all));
    assert [] + [a] == [a];
    ResolvedSnoc([], a, ById(), Usable());
    ResolvedSnoc([a], b, ById(), Usable());
    assert HasKey([a], ById(), b.id) <==> a.id == b.id by {
      assert [a][0] == a;
    }
  }
}
