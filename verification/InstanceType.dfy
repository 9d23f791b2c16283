/** The instance type provider: all service offerings are cached per zone, and every caller
    filters what it reads by its own selector terms. */
module InstanceTypeProvider {
  import opened Lists
  import opened Tags
  import opened Resolution
  import opened TtlCache
  import L = ListCache

  datatype ServiceOffering = ServiceOffering(id: string, name: string, cpuNumber: int, memory: int)

  datatype Term = Term(tags: TagMap, id: string, name: string)

  function ById(): ServiceOffering -> string { (o: ServiceOffering) => o.id }
  function ByName(): ServiceOffering -> string { (o: ServiceOffering) => o.name }
  function HasId(id: string): ServiceOffering -> bool { (o: ServiceOffering) => o.id == id }
  function HasName(name: string): ServiceOffering -> bool { (o: ServiceOffering) => o.name == name }
  function Everything(): ServiceOffering -> bool { (o: ServiceOffering) => true }

  /** What one term contributes: the first offering with its id, else the first with its name.
      The code does not look at the tags of a term. */
  function Select(all: seq<ServiceOffering>, t: Term): seq<ServiceOffering> {
    if t.id != "" && Find(all, HasId(t.id)).Some? then [Find(all, HasId(t.id)).value]
    else if t.name != "" && Find(all, HasName(t.name)).Some? then [Find(all, HasName(t.name)).value]
    else []
  }

  function Selector(all: seq<ServiceOffering>): Term -> seq<ServiceOffering> { t => Select(all, t) }

  /** The offerings the terms choose from a listing, without repeated ids. */
  function Chosen(all: seq<ServiceOffering>, terms: seq<Term>): seq<ServiceOffering> {
    UniqBy(FlatMap(terms, Selector(all)), ById())
  }

  /** The names of the instance types that List offers. */
  function TypeNames(all: seq<ServiceOffering>, terms: seq<Term>): seq<string> {
    Map(Chosen(all, terms), ByName())
  }

  /** The loop of filterServiceOfferings. */
  method FilterServiceOfferings(all: seq<ServiceOffering>, terms: seq<Term>) returns (matched: seq<ServiceOffering>)
    ensures matched == Chosen(all, terms)
  {
    matched := [];
    for i := 0 to |terms|
      invariant matched == FlatMap(terms[..i], Selector(all))
    {
      var term := terms[i];
      Snoc(terms, i);
      if term.id != "" {
        var found := Find(all, HasId(term.id));
        if found.Some? {
          matched := matched + [found.value];
          continue;
        }
      }
      if term.name != "" {
        var found := Find(all, HasName(term.name));
        if found.Some? {
          matched := matched + [found.value];
          continue;
        }
      }
    }
    assert terms[..|terms|] == terms;
    matched := UniqBy(matched, ById());
  }

  class Provider {
    var cache: Cache<seq<ServiceOffering>>

    constructor ()
      ensures cache == map[]
    {
      cache := map[];
    }

    static function CacheKey(zone: string): string { "service-offerings-" + zone }

    /** resolveServiceOfferings, when no other caller interferes.  The cache holds the whole answer
        of the API, never a filtered one. */
    method ResolveServiceOfferings(api: Option<seq<ServiceOffering>>, terms: seq<Term>, zone: string, now: int)
      returns (r: Option<seq<ServiceOffering>>)
      modifies this
      ensures var (all, after) := ReadThrough(old(cache), CacheKey(zone), now, api);
              cache == after && r == if all.None? then None else Some(Chosen(all.value, terms))
    {
      var key := CacheKey(zone);
      if Lookup(cache, key, now).Some? {
        var filtered := FilterServiceOfferings(Lookup(cache, key, now).value, terms);
        return Some(filtered);
      }
      if api.None? {
        return None;
      }
      cache := cache[key := Entry(api.value, now)];
      var filtered := FilterServiceOfferings(api.value, terms);
      return Some(filtered);
    }

    /** List: an instance type per chosen offering, known by the offering's name. */
    method List(api: Option<seq<ServiceOffering>>, terms: seq<Term>, zone: string, now: int) returns (r: Option<seq<string>>)
      modifies this
      ensures var (all, after) := ReadThrough(old(cache), CacheKey(zone), now, api);
              cache == after && r == if all.None? then None else Some(TypeNames(all.value, terms))
      ensures var all := ReadThrough(old(cache), CacheKey(zone), now, api).0;
              r.Some? <==> all.Some?
      ensures var all := ReadThrough(old(cache), CacheKey(zone), now, api).0;
              forall chosen: seq<ServiceOffering> | all.Some? && KeepsFirstUsable(FlatMap(terms, Selector(all.value)), ById(), Everything(), chosen) ::
                |r.value| == |chosen| && forall i | 0 <= i < |chosen| :: r.value[i] == chosen[i].name
    {
      var offerings := ResolveServiceOfferings(api, terms, zone, now);
      if offerings.None? {
        return None;
      }
      var names: seq<string> := [];
      for i := 0 to |offerings.value|
        invariant names == Map(offerings.value[..i], ByName())
      {
        names := names + [offerings.value[i].name];
      }
      assert offerings.value[..|offerings.value|] == offerings.value;
      ghost var all := ReadThrough(old(cache), CacheKey(zone), now, api).0.value;
      forall chosen: seq<ServiceOffering> | KeepsFirstUsable(FlatMap(terms, Selector(all)), ById(), Everything(), chosen)
        ensures chosen == offerings.value
      {
        ChosenIff(all, terms, chosen);
      }
      return Some(names);
    }
  }

  // ----- zones -----

  lemma ZoneKeysApart(a: string, b: string)
    ensures Provider.CacheKey(a) == Provider.CacheKey(b) <==> a == b
  {
    SameTail("service-offerings-", a, b);
  }

  /** Resolving for one zone never changes what is resolved for another. */
  lemma ZonesAreApart(cache: Cache<seq<ServiceOffering>>, a: string, b: string, then_: int, now: int,
                      before: Option<seq<ServiceOffering>>, api: Option<seq<ServiceOffering>>)
    requires a != b
    ensures var after := ReadThrough(cache, Provider.CacheKey(a), then_, before).1;
            ReadThrough(after, Provider.CacheKey(b), now, api).0 == ReadThrough(cache, Provider.CacheKey(b), now, api).0
  {
    ZoneKeysApart(a, b);
    KeysAreApart(cache, Provider.CacheKey(a), Provider.CacheKey(b), then_, now, before, api);
  }

  // ----- what the terms choose -----

  /** An id that is listed decides alone, then a name that is listed; tags never select. */
  lemma SelectMeaning(all: seq<ServiceOffering>, t: Term)
    ensures var byId, byName := t.id != "" && HasKey(all, ById(), t.id), t.name != "" && HasKey(all, ByName(), t.name);
            && (byId ==> IsFirst(all, ById(), t.id, Select(all, t)))
            && (!byId && byName ==> IsFirst(all, ByName(), t.name, Select(all, t)))
            && (!byId && !byName ==> Select(all, t) == [])
  {
    FindIsFirst(all, ById(), HasId(t.id), t.id);
    FindIsFirst(all, ByName(), HasName(t.name), t.name);
  }

  lemma ChosenIsResolved(all: seq<ServiceOffering>, terms: seq<Term>)
    ensures Chosen(all, terms) == Resolved(FlatMap(terms, Selector(all)), ById(), Everything())
  {
    FilterAll(Chosen(all, terms), Everything());
  }

  /** The result keeps, in term order, the first selected offering of every id. */
  lemma ChosenIff(all: seq<ServiceOffering>, terms: seq<Term>, r: seq<ServiceOffering>)
    ensures r == Chosen(all, terms) <==> KeepsFirstUsable(FlatMap(terms, Selector(all)), ById(), Everything(), r)
  {
    ChosenIsResolved(all, terms);
    ResolvedIff(FlatMap(terms, Selector(all)), ById(), Everything(), r);
  }

  /** Appending terms only extends the result. */
  lemma AppendKeepsChoices(all: seq<ServiceOffering>, terms: seq<Term>, extra: seq<Term>)
    ensures Chosen(all, terms) <= Chosen(all, terms + extra)
    ensures Chosen(all, terms) != [] ==> Chosen(all, terms + extra)[0] == Chosen(all, terms)[0]
  {
    ChosenIsResolved(all, terms);
    ChosenIsResolved(all, terms + extra);
    TermsAppend(terms, extra, Selector(all), ById(), Everything());
  }

  /** With unique ids an offering is chosen exactly when some term selects it. */
  lemma ChosenBy(all: seq<ServiceOffering>, terms: seq<Term>, x: ServiceOffering)
    requires UniqueBy(all, ById())
    ensures x in Chosen(all, terms) <==> exists t | t in terms :: x in Select(all, t)
  {
    ChosenIsResolved(all, terms);
    assert SelectsFrom(all, Selector(all));
    ResolvedByTerms(all, terms, Selector(all), ById(), Everything(), x);
    assert forall t :: Selector(all)(t) == Select(all, t);
  }

  // ----- the documented reading: the fields of a term are ANDed -----

  /** The tags of the offerings, by id: the API has them, and the code does not ask. */
  type OfferingTags = map<string, TagMap>

  predicate Satisfies(tags: OfferingTags, o: ServiceOffering, t: Term) {
    && (t.id != "" ==> o.id == t.id) && (t.name != "" ==> o.name == t.name)
    && MatchesTags(if o.id in tags then tags[o.id] else map[], t.tags)
  }

  function Satisfier(tags: OfferingTags, t: Term): ServiceOffering -> bool { o => Satisfies(tags, o, t) }

  /** What the API documentation says a term selects. */
  function Documented(all: seq<ServiceOffering>, tags: OfferingTags, t: Term): seq<ServiceOffering> {
    Filter(all, Satisfier(tags, t))
  }

  ghost predicate AsDocumented(t: Term) {
    forall all, tags: OfferingTags | UniqueBy(all, ById()) && UniqueBy(all, ByName()) :: Select(all, t) == Documented(all, tags, t)
  }

  /** The id alone or the name alone. */
  predicate IdOrName(t: Term) {
    |t.tags| == 0 && ((t.id != "") != (t.name != ""))
  }

  lemma IdOrNameAgrees(all: seq<ServiceOffering>, tags: OfferingTags, t: Term)
    requires IdOrName(t) && UniqueBy(all, ById()) && UniqueBy(all, ByName())
    ensures Select(all, t) == Documented(all, tags, t)
  {
    if t.id != "" {
      FindIsFilter(all, ById(), HasId(t.id), t.id);
      FilterSame(all, HasId(t.id), Satisfier(tags, t));
    } else {
      FindIsFilter(all, ByName(), HasName(t.name), t.name);
      FilterSame(all, HasName(t.name), Satisfier(tags, t));
    }
  }

  /** Any other term disagrees with its documentation on a listing of a single offering: tags and no
      more select an offering that has them only by the documentation. */
  lemma OthersDisagree(t: Term) returns (all: seq<ServiceOffering>, tags: OfferingTags)
    requires !IdOrName(t)
    ensures |all| == 1 && Select(all, t) != Documented(all, tags, t)
  {
    var o := ServiceOffering(t.id, if t.id != "" && t.name != "" then t.name + "x" else t.name, 1, 1);
    all, tags := [o], if t.id == "" && t.name == "" then map[o.id := t.tags] else map[];
    assert all[..0] == [];
    if t.id == "" && t.name == "" {
      assert Satisfies(tags, o, t);
      FilterOne(all, Satisfier(tags, t), 0);
    } else {
      if |t.tags| > 0 {
        var k :| k in t.tags;
      }
      assert t.id != "" ==> HasId(t.id)(o);
      assert t.name == o.name ==> HasName(t.name)(o);
      assert !Satisfies(tags, o, t);
      FilterNone(all, Satisfier(tags, t));
    }
  }

  /** The code reads an offering term as documented, on every listing with unique ids and names and
      whatever the tags of the offerings, exactly when the term sets the id alone or the name
      alone. */
  lemma DocumentedIff(t: Term)
    ensures AsDocumented(t) <==> |t.tags| == 0 && ((t.id != "") != (t.name != ""))
  {
    if IdOrName(t) {
      forall all, tags: OfferingTags | UniqueBy(all, ById()) && UniqueBy(all, ByName())
        ensures Select(all, t) == Documented(all, tags, t)
      {
        IdOrNameAgrees(all, tags, t);
      }
    } else {
      var all, tags := OthersDisagree(t);
      assert UniqueBy(all, ById()) && UniqueBy(all, ByName());
    }
  }

  /** Such terms choose the documented OR of their requirements. */
  lemma DocumentedChoice(all: seq<ServiceOffering>, tags: OfferingTags, terms: seq<Term>, x: ServiceOffering)
    requires UniqueBy(all, ById()) && UniqueBy(all, ByName())
    requires forall t | t in terms :: IdOrName(t)
    ensures x in Chosen(all, terms) <==> x in all && exists t | t in terms :: Satisfies(tags, x, t)
  {
    ChosenBy(all, terms, x);
    forall t | t in terms ensures x in Select(all, t) <==> x in all && Satisfies(tags, x, t) {
      IdOrNameAgrees(all, tags, t);
      FilterMembers(all, Satisfier(tags, t), x);
    }
  }

  // ----- many callers -----

  /** The listing is the answer to one call, and a caller makes its own choice from it. */
  ghost function Code(): L.Code<string, seq<ServiceOffering>, seq<ServiceOffering>, seq<Term>, seq<ServiceOffering>> {
    L.Code(L.OneCall(), (all: seq<ServiceOffering>, terms: seq<Term>) => Chosen(all, terms))
  }

  /** Filtering after caching refines filtering what the API answers: in every interleaving of
      callers with different terms, each result is the caller's own choice from an answer the API
      would have given no longer ago than one TTL and one fetch. */
  lemma EveryCallerFiltersForItself(now: int, world: imap<string, seq<ServiceOffering>>,
                                    steps: seq<L.Step<string, seq<ServiceOffering>, seq<Term>>>, id: nat)
    returns (answer: seq<ServiceOffering>, snap: int, f: L.Fetch<string, seq<ServiceOffering>, seq<ServiceOffering>>)
    requires L.Runs(Code(), L.Start(now, world), steps)
    requires var s := L.After(Code(), L.Start(now, world), steps);
             id in s.calls && s.calls[id].pc.Returned? && s.calls[id].pc.reply.Got?
    ensures var s := L.After(Code(), L.Start(now, world), steps);
            var c := s.calls[id];
            && c.pc.reply.result == Chosen(answer, c.query)
            && L.HeldAt(s.past, snap, c.key, answer)
            && f in s.fetches && f.key == c.key && f.start <= snap <= f.at
            && snap <= c.pc.reply.at <= snap + TTL + (f.at - f.start)
  {
    snap, f := L.OneCallIsOneMoment(Code(), now, world, steps, id);
    answer := L.After(Code(), L.Start(now, world), steps).calls[id].pc.reply.value;
  }
}
