/** The template provider: the union of three template listings through the cache, and the
    resolution of template selector terms against it. */
module TemplateProvider {
  import opened Lists
  import opened Tags
  import opened Resolution
  import opened TtlCache
  import opened Slices
  import L = ListCache

  datatype Template = Template(
    id: string, name: string, displayText: string, zone: string, zoneId: string, osType: string, osTypeName: string,
    status: string, isReady: bool, isPublic: bool, isFeatured: bool, tags: TagMap)

  datatype Term = Term(tags: TagMap, id: string, name: string, osType: string)

  datatype Error = ListFailed | NothingMatched

  datatype Result<+T> = Ok(value: T) | Err(error: Error)

  // ----- the CloudStack side -----

  /** A template as the API describes it, without its tags. */
  datatype ApiTemplate = ApiTemplate(
    id: string, name: string, displayText: string, zoneName: string, zoneId: string, osTypeId: string,
    osTypeName: string, status: string, isReady: bool, isPublic: bool, isFeatured: bool)

  /** What the API answers, per zone id and template filter; what is missing stands for a call
      that fails. */
  datatype Api = Api(
    zoneIds: map<string, string>, templates: map<(string, string), seq<ApiTemplate>>, tags: map<string, seq<Pair>>)

  const FILTERS: seq<string> := ["featured", "community", "self"]

  function WithTags(api: Api, t: ApiTemplate): Template {
    Template(t.id, t.name, t.displayText, t.zoneName, t.zoneId, t.osTypeId, t.osTypeName,
             t.status, t.isReady, t.isPublic, t.isFeatured,
             if t.id in api.tags then FromPairs(api.tags[t.id]) else map[])
  }

  function Tagger(api: Api): ApiTemplate -> Template {
    t => WithTags(api, t)
  }

  /** What one filter contributes: nothing when its call fails. */
  function Answer(api: Api, zoneId: string, filter: string): seq<Template> {
    if (zoneId, filter) in api.templates then Map(api.templates[(zoneId, filter)], Tagger(api)) else []
  }

  function Answers(api: Api, zoneId: string): string -> seq<Template> {
    filter => Answer(api, zoneId, filter)
  }

  /** The listing a fetch produces; only a failing zone lookup makes it fail. */
  function Fetched(api: Api, zone: string): Option<seq<Template>> {
    if zone !in api.zoneIds then None
    else Some(UniqBy(FlatMap(FILTERS, Answers(api, api.zoneIds[zone])), ById()))
  }

  // ----- selector terms -----

  function ById(): Template -> string { (t: Template) => t.id }
  function ByName(): Template -> string { (t: Template) => t.name }
  function HasId(id: string): Template -> bool { (t: Template) => t.id == id }
  function HasName(name: string): Template -> bool { (t: Template) => t.name == name }
  function HasOs(os: string): Template -> bool { (t: Template) => t.osTypeName == os || t.osType == os }
  function HasTags(tags: TagMap): Template -> bool { (t: Template) => MatchesTags(t.tags, tags) }
  function Usable(): Template -> bool { (t: Template) => t.isReady && t.status == "Download Complete" }

  function Narrowed(all: seq<Template>, os: string): seq<Template> {
    if os != "" then Filter(all, HasOs(os)) else all
  }

  /** What one term contributes: the first template with its id, else the first with its name,
      else those of its OS type, if any, that match its tags, if any. */
  function Select(all: seq<Template>, t: Term): seq<Template> {
    if t.id != "" && Find(all, HasId(t.id)).Some? then [Find(all, HasId(t.id)).value]
    else if t.name != "" && Find(all, HasName(t.name)).Some? then [Find(all, HasName(t.name)).value]
    else if |t.tags| > 0 then Filter(Narrowed(all, t.osType), HasTags(t.tags))
    else if t.osType != "" then Narrowed(all, t.osType)
    else []
  }

  function Selector(all: seq<Template>): Term -> seq<Template> { t => Select(all, t) }

  function Resolve(all: seq<Template>, terms: seq<Term>): seq<Template> {
    Resolved(FlatMap(terms, Selector(all)), ById(), Usable())
  }

  /** What a caller gets for its terms from a listing, if there is one. */
  function Answered(listed: Option<seq<Template>>, terms: seq<Term>): Result<seq<Template>> {
    if listed.None? then Err(ListFailed)
    else if Resolve(listed.value, terms) == [] then Err(NothingMatched)
    else Ok(Resolve(listed.value, terms))
  }

  /** The provider.  A cached listing is a slice that List hands to every caller, so whoever wrote to
      its array would change what the others read. */
  class Provider {
    var cache: Cache<Slice<Template>>

    ghost function Arrays(): set<object>
      reads this
    {
      set k | k in cache :: cache[k].value.store
    }

    /** Every cached listing has unique ids. */
    ghost predicate Valid()
      reads this, Arrays()
    {
      forall k | k in cache :: cache[k].value.Valid() && UniqueBy(cache[k].value.Value(), ById())
    }

    /** The cache as its readers see it. */
    ghost function Contents(): Cache<seq<Template>>
      requires Valid()
      reads this, Arrays()
    {
      map k | k in cache :: Entry(cache[k].value.Value(), cache[k].setAt)
    }

    constructor ()
      ensures Valid() && Contents() == map[] && cache == map[]
    {
      cache := map[];
    }

    static function CacheKey(zone: string): string { "templates-" + zone }

    /** List, when no other caller interferes: ListCache treats the interleavings.  The caller gets
        the cached slice itself. */
    method List(api: Api, zone: string, now: int) returns (r: Option<Slice<Template>>)
      requires Valid()
      modifies this
      ensures Valid()
      ensures r.Some? ==> r.value.Valid() && CacheKey(zone) in cache && cache[CacheKey(zone)].value == r.value
      ensures ((if r.None? then None else Some(r.value.Value())), Contents())
           == ReadThrough(old(Contents()), CacheKey(zone), now, Fetched(api, zone))
    {
      var key := CacheKey(zone);
      if Lookup(cache, key, now).Some? {
        return Lookup(cache, key, now);
      }
      if zone !in api.zoneIds {
        return None;
      }
      var all := Fetch(api, api.zoneIds[zone]);
      assert Contents() == old(Contents());
      Set(key, all, now);
      return Some(all);
    }

    method Set(key: string, all: Slice<Template>, now: int)
      requires Valid() && all.Valid() && UniqueBy(all.Value(), ById())
      modifies this
      ensures Valid() && cache == old(cache)[key := Entry(all, now)]
      ensures Contents() == old(Contents())[key := Entry(all.Value(), now)]
    {
      cache := cache[key := Entry(all, now)];
      assert Contents() == old(Contents())[key := Entry(all.Value(), now)];
    }

    /** The part of List that asks the API. */
    method Fetch(api: Api, zoneId: string) returns (all: Slice<Template>)
      ensures all.Valid() && fresh(all.store) && UniqueBy(all.Value(), ById())
      ensures all.Value() == UniqBy(FlatMap(FILTERS, Answers(api, zoneId)), ById())
    {
      all := Make(0);
      for f := 0 to |FILTERS|
        invariant all.Valid() && fresh(all.store)
        invariant all.Value() == FlatMap(FILTERS[..f], Answers(api, zoneId))
      {
        Snoc(FILTERS, f);
        if (zoneId, FILTERS[f]) !in api.templates {
          continue;
        }
        all := AddAnswer(api, all, api.templates[(zoneId, FILTERS[f])]);
      }
      assert FILTERS[..|FILTERS|] == FILTERS;
      UniqByFacts(all.Value(), ById());
      all := UniqOf(all, ById());
    }

    /** The inner loop of List: one answer, with the tags of every template. */
    method AddAnswer(api: Api, listed: Slice<Template>, response: seq<ApiTemplate>) returns (all: Slice<Template>)
      requires listed.Valid()
      modifies listed.store
      ensures all.Valid() && (all.store == listed.store || fresh(all.store))
      ensures all.Value() == old(listed.Value()) + Map(response, Tagger(api))
    {
      all := listed;
      for i := 0 to |response|
        invariant all.Valid() && (all.store == listed.store || fresh(all.store))
        invariant all.Value() == old(listed.Value()) + Map(response[..i], Tagger(api))
      {
        var t := response[i];
        var tags: TagMap := map[];
        if t.id in api.tags {
          tags := GetTags(api.tags[t.id]);
        }
        all := Push(all, Template(t.id, t.name, t.displayText, t.zoneName, t.zoneId, t.osTypeId, t.osTypeName,
                                  t.status, t.isReady, t.isPublic, t.isFeatured, tags));
      }
      assert response[..|response|] == response;
    }

    /** ResolveTemplates: fails exactly when the listing fails or nothing usable is selected.  No
        cached array is written to, and the result has an array of its own. */
    method ResolveTemplates(api: Api, terms: seq<Term>, zone: string, now: int) returns (r: Result<Slice<Template>>)
      requires Valid()
      modifies this
      ensures Valid()
      ensures Contents() == ReadThrough(old(Contents()), CacheKey(zone), now, Fetched(api, zone)).1
      ensures forall k | k in old(cache) :: old(cache[k].value).store[..] == old(cache[k].value.store[..])
      ensures r.Ok? ==> r.value.Valid() && fresh(r.value.store) && r.value.store !in Arrays()
      ensures (if r.Ok? then Ok(r.value.Value()) else Err(r.error))
           == Answered(ReadThrough(old(Contents()), CacheKey(zone), now, Fetched(api, zone)).0, terms)
    {
      var listed := List(api, zone, now);
      if listed.None? {
        return Err(ListFailed);
      }
      label Listed:
      r := Choose(listed.value, terms);
      assert Contents() == old@Listed(Contents());
    }

    /** The part of ResolveTemplates that works on the listing. */
    method Choose(all: Slice<Template>, terms: seq<Term>) returns (r: Result<Slice<Template>>)
      requires all.Valid()
      ensures r.Ok? ==> r.value.Valid() && fresh(r.value.store)
      ensures (if r.Ok? then Ok(r.value.Value()) else Err(r.error)) == Answered(Some(all.Value()), terms)
    {
      var matched := MatchTerms(all, terms);
      matched := UniqOf(matched, ById());
      matched := FilterOf(matched, Usable());
      if matched.len == 0 {
        return Err(NothingMatched);
      }
      return Ok(matched);
    }

    /** The loop over the terms.  It starts from a nil slice, so its appends never write to the
        listing, whatever room that has. */
    method MatchTerms(all: Slice<Template>, terms: seq<Term>) returns (matched: Slice<Template>)
      requires all.Valid()
      ensures matched.Valid() && fresh(matched.store)
      ensures matched.Value() == FlatMap(terms, Selector(all.Value()))
    {
      ghost var listing := all.Value();
      matched := Make(0);
      for i := 0 to |terms|
        invariant matched.Valid() && fresh(matched.store)
        invariant all.Value() == listing && matched.Value() == FlatMap(terms[..i], Selector(listing))
      {
        Snoc(terms, i);
        matched := MatchTerm(all, terms[i], matched);
      }
      assert terms[..|terms|] == terms;
    }

    /** One turn of that loop. */
    method MatchTerm(all: Slice<Template>, term: Term, before: Slice<Template>) returns (matched: Slice<Template>)
      requires all.Valid() && before.Valid() && before.store != all.store
      modifies before.store
      ensures matched.Valid() && (matched.store == before.store || fresh(matched.store))
      ensures matched.Value() == old(before.Value()) + Select(all.Value(), term)
    {
      if term.id != "" {
        var found := FindIn(all, HasId(term.id));
        if found.Some? {
          matched := Push(before, found.value);
          return;
        }
      }
      if term.name != "" {
        var found := FindIn(all, HasName(term.name));
        if found.Some? {
          matched := Push(before, found.value);
          return;
        }
      }
      matched := before;
      var templates := all;
      if term.osType != "" {
        templates := FilterOf(templates, HasOs(term.osType));
      }
      if |term.tags| > 0 {
        var matches := FilterOf(templates, HasTags(term.tags));
        matched := Append(matched, matches);
      } else if term.osType != "" {
        matched := Append(matched, templates);
      }
    }
  }

  // ----- zones -----

  lemma ZoneKeysApart(a: string, b: string)
    ensures Provider.CacheKey(a) == Provider.CacheKey(b) <==> a == b
  {
    SameTail("templates-", a, b);
  }

  /** Listing one zone never changes what listing another zone answers. */
  lemma ZonesAreApart(cache: Cache<seq<Template>>, a: string, b: string, then_: int, now: int, before: Api, api: Api)
    requires a != b
    ensures var after := ReadThrough(cache, Provider.CacheKey(a), then_, Fetched(before, a)).1;
            ReadThrough(after, Provider.CacheKey(b), now, Fetched(api, b)).0 ==
            ReadThrough(cache, Provider.CacheKey(b), now, Fetched(api, b)).0
  {
    ZoneKeysApart(a, b);
    KeysAreApart(cache, Provider.CacheKey(a), Provider.CacheKey(b), then_, now, Fetched(before, a), Fetched(api, b));
  }

  // ----- what the listing contains -----

  function Everything(): Template -> bool { (t: Template) => true }

  /** The stored listing keeps, in featured, community, self order, the first template of every id
      among the answers that arrived; a filter whose call fails takes away its own answer only. */
  lemma ListingIff(api: Api, zone: string, r: seq<Template>)
    requires zone in api.zoneIds
    ensures var id := api.zoneIds[zone];
            Fetched(api, zone) == Some(r) <==>
            KeepsFirstUsable(Answer(api, id, "featured") + Answer(api, id, "community") + Answer(api, id, "self"),
                             ById(), Everything(), r)
  {
    var id := api.zoneIds[zone];
    var f := Answers(api, id);
    assert FILTERS == ["featured"] + ["community"] + ["self"];
    FlatMapAppend(["featured"] + ["community"], ["self"], f);
    FlatMapAppend(["featured"], ["community"], f);
    forall s: seq<string> | |s| == 1 ensures FlatMap(s, f) == f(s[0]) {
      assert s[..0] == [];
    }
    var answers := Answer(api, id, "featured") + Answer(api, id, "community") + Answer(api, id, "self");
    assert FlatMap(FILTERS, f) == answers;
    ResolvedIff(answers, ById(), Everything(), r);
    FilterAll(UniqBy(answers, ById()), Everything());
  }

  /** A fetch answers the empty listing, which is then cached, exactly when no filter brings a
      template: three failing calls count as an empty answer, not as a failure. */
  lemma EmptyListingIff(api: Api, zone: string)
    requires zone in api.zoneIds
    ensures Fetched(api, zone) == Some([]) <==>
            forall f | f in FILTERS :: (api.zoneIds[zone], f) in api.templates ==> api.templates[(api.zoneIds[zone], f)] == []
  {
    var id := api.zoneIds[zone];
    var f := Answers(api, id);
    FlatMapEmpty(FILTERS, f);
    UniqByEmpty(FlatMap(FILTERS, f), ById());
    forall filter ensures f(filter) == [] <==> (id, filter) in api.templates ==> api.templates[(id, filter)] == [] {
      assert f(filter) == Answer(api, id, filter);
    }
    assert forall filter | filter in FILTERS :: exists i | 0 <= i < |FILTERS| :: FILTERS[i] == filter;
  }

  // ----- what the resolution means -----

  /** An id that is listed decides alone, then a name that is listed, then tags and OS type together. */
  lemma SelectMeaning(all: seq<Template>, t: Term)
    ensures var byId, byName := t.id != "" && HasKey(all, ById(), t.id), t.name != "" && HasKey(all, ByName(), t.name);
            && (byId ==> IsFirst(all, ById(), t.id, Select(all, t)))
            && (!byId && byName ==> IsFirst(all, ByName(), t.name, Select(all, t)))
            && (!byId && !byName ==> 
                  forall x :: x in Select(all, t) <==>
                    && x in all && (|t.tags| > 0 || t.osType != "") && MatchesTags(x.tags, t.tags)
                    && (t.osType != "" ==> x.osTypeName == t.osType || x.osType == t.osType))
  {
    FindIsFirst(all, ById(), HasId(t.id), t.id);
    FindIsFirst(all, ByName(), HasName(t.name), t.name);
    forall x ensures x in Narrowed(all, t.osType) <==>
                     x in all && (t.osType != "" ==> x.osTypeName == t.osType || x.osType == t.osType)
    {
      FilterMembers(all, HasOs(t.osType), x);
    }
    forall x ensures x in Filter(Narrowed(all, t.osType), HasTags(t.tags)) <==>
                     x in Narrowed(all, t.osType) && MatchesTags(x.tags, t.tags)
    {
      FilterMembers(Narrowed(all, t.osType), HasTags(t.tags), x);
    }
  }

  lemma SelectsListed(all: seq<Template>)
    ensures SelectsFrom(all, Selector(all))
  {
    forall t, y | y in Selector(all)(t) ensures y in all {
      FilterMembers(all, HasOs(t.osType), y);
      FilterMembers(Narrowed(all, t.osType), HasTags(t.tags), y);
    }
  }

  /** A caller gets the one list that keeps, in candidate order, the first candidate of every id if it
      is usable, unless that is empty or there is no listing.  Usable are the
      templates: those that are ready and completely downloaded. */
  lemma AnsweredIff(listed: Option<seq<Template>>, terms: seq<Term>, id: Template -> string, usable: Template -> bool, r: seq<Template>)
    requires forall n :: id(n) == n.id && (usable(n) <==> n.isReady && n.status == "Download Complete")
    ensures Answered(listed, terms) == Ok(r) <==>
            listed.Some? && r != [] && KeepsFirstUsable(FlatMap(terms, Selector(listed.value)), id, usable, r)
    ensures Answered(listed, terms) == Err(NothingMatched) <==>
            listed.Some? && KeepsFirstUsable(FlatMap(terms, Selector(listed.value)), id, usable, [])
    ensures Answered(listed, terms) == Err(ListFailed) <==> listed.None?
  {
    if listed.Some? {
      var candidates := FlatMap(terms, Selector(listed.value));
      ResolveIff(listed.value, terms, r);
      ResolveIff(listed.value, terms, []);
      KeepsAlike(candidates, ById(), id, Usable(), usable, r);
      KeepsAlike(candidates, ById(), id, Usable(), usable, []);
    }
  }

  lemma UsableMeans()
    ensures forall n :: ById()(n) == n.id && (Usable()(n) <==> n.isReady && n.status == "Download Complete")
  {}

  lemma ResolveIff(all: seq<Template>, terms: seq<Term>, r: seq<Template>)
    ensures r == Resolve(all, terms) <==> KeepsFirstUsable(FlatMap(terms, Selector(all)), ById(), Usable(), r)
  {
    ResolvedIff(FlatMap(terms, Selector(all)), ById(), Usable(), r);
  }

  /** Appending terms only extends the result. */
  lemma AppendKeepsChoices(all: seq<Template>, terms: seq<Term>, extra: seq<Term>)
    ensures Resolve(all, terms) <= Resolve(all, terms + extra)
    ensures Resolve(all, terms) != [] ==> Resolve(all, terms + extra)[0] == Resolve(all, terms)[0]
  {
    TermsAppend(terms, extra, Selector(all), ById(), Usable());
  }

  lemma AppendKeepsHead(listed: Option<seq<Template>>, terms: seq<Term>, extra: seq<Term>)
    requires Answered(listed, terms).Ok?
    ensures Answered(listed, terms).value != [] && Answered(listed, terms + extra).Ok? && Answered(listed, terms + extra).value != []
    ensures Answered(listed, terms + extra).value[0] == Answered(listed, terms).value[0]
  {
    AppendKeepsChoices(listed.value, terms, extra);
  }

  lemma ResolveBy(all: seq<Template>, terms: seq<Term>, x: Template)
    requires UniqueBy(all, ById())
    ensures x in Resolve(all, terms) <==> x.isReady && x.status == "Download Complete" && exists t | t in terms :: x in Select(all, t)
  {
    SelectsListed(all);
    ResolvedByTerms(all, terms, Selector(all), ById(), Usable(), x);
    assert forall t :: Selector(all)(t) == Select(all, t);
  }

  /** Terms that are the same as a set resolve the same templates, and fail alike: the unique ids
      this needs are what Provider.List delivers. */
  lemma OrderIrrelevant(all: seq<Template>, terms: seq<Term>, other: seq<Term>)
    requires UniqueBy(all, ById()) && SameMembers(terms, other)
    ensures SameMembers(Resolve(all, terms), Resolve(all, other))
    ensures Resolve(all, terms) == [] <==> Resolve(all, other) == []
  {
    forall x ensures x in Resolve(all, terms) <==> x in Resolve(all, other) {
      ResolveBy(all, terms, x);
      ResolveBy(all, other, x);
    }
    EmptyTogether(Resolve(all, terms), Resolve(all, other));
  }

  // ----- listings assembled while the world changes -----

  datatype Ask = AskZone(zone: string) | AskTemplates(zoneId: string, filter: string) | AskTags(id: string)

  datatype ApiAnswer = ZoneId(id: string) | Templates(list: seq<ApiTemplate>) | TagList(pairs: seq<Pair>)

  type Heard = L.Heard<Ask, ApiAnswer>

  function Reply(api: Api, ask: Ask): Option<ApiAnswer> {
    match ask
    case AskZone(zone) => if zone in api.zoneIds then Some(ZoneId(api.zoneIds[zone])) else None
    case AskTemplates(zoneId, filter) =>
      if (zoneId, filter) in api.templates then Some(Templates(api.templates[(zoneId, filter)])) else None
    case AskTags(id) => if id in api.tags then Some(TagList(api.tags[id])) else None
  }

  ghost function World(api: Api): imap<Ask, ApiAnswer> {
    imap ask: Ask | Reply(api, ask).Some? :: Reply(api, ask).value
  }

  function Joined(t: ApiTemplate, answer: Option<ApiAnswer>): Template {
    Template(t.id, t.name, t.displayText, t.zoneName, t.zoneId, t.osTypeId, t.osTypeName,
             t.status, t.isReady, t.isPublic, t.isFeatured,
             if answer.Some? && answer.value.TagList? then FromPairs(answer.value.pairs) else map[])
  }

  /** The templates that a list call brought: none if it failed. */
  function ListedBy(h: Heard): seq<ApiTemplate> {
    if h.answer.Some? && h.answer.value.Templates? then h.answer.value.list else []
  }

  /** The first call asks for the templates of the filter, the next ones for their tags. */
  predicate HeardChunk(zoneId: string, filter: string, heard: seq<Heard>) {
    && heard != [] && heard[0].ask == AskTemplates(zoneId, filter)
    && |heard| >= 1 + |ListedBy(heard[0])|
    && forall i | 0 <= i < |ListedBy(heard[0])| :: heard[1 + i].ask == AskTags(ListedBy(heard[0])[i].id)
  }

  function Chunk(zoneId: string, filter: string, heard: seq<Heard>): seq<Template>
    requires HeardChunk(zoneId, filter, heard)
  {
    var ts := ListedBy(heard[0]);
    seq(|ts|, i requires 0 <= i < |ts| => Joined(ts[i], heard[1 + i].answer))
  }

  /** What the filters bring, one after the other. */
  function Gathered(zoneId: string, filters: seq<string>, heard: seq<Heard>): Option<seq<Template>>
    decreases |filters|
  {
    if filters == [] then if heard == [] then Some([]) else None
    else if !HeardChunk(zoneId, filters[0], heard) then None
    else
      var rest := Gathered(zoneId, filters[1..], heard[1 + |ListedBy(heard[0])|..]);
      if rest.None? then None else Some(Chunk(zoneId, filters[0], heard) + rest.value)
  }

  /** What List makes of its API calls. */
  function Built(key: string, heard: seq<Heard>): Option<seq<Template>> {
    if heard == [] || !heard[0].ask.AskZone? || Provider.CacheKey(heard[0].ask.zone) != key
      || heard[0].answer.None? || !heard[0].answer.value.ZoneId? then None
    else
      var all := Gathered(heard[0].answer.value.id, FILTERS, heard[1..]);
      if all.None? then None else Some(UniqBy(all.value, ById()))
  }

  ghost function Code(): L.Code<Ask, ApiAnswer, seq<Template>, seq<Term>, Result<seq<Template>>> {
    L.Code((key: string, heard: seq<Heard>) => Built(key, heard),
           (all: seq<Template>, terms: seq<Term>) => Answered(Some(all), terms))
  }

  function TagAsks(ts: seq<ApiTemplate>): seq<Ask> {
    seq(|ts|, i requires 0 <= i < |ts| => AskTags(ts[i].id))
  }

  function FilterAsks(api: Api, zoneId: string, filters: seq<string>): seq<Ask>
    decreases |filters|
  {
    if filters == [] then []
    else
      var listed := if (zoneId, filters[0]) in api.templates then api.templates[(zoneId, filters[0])] else [];
      [AskTemplates(zoneId, filters[0])] + TagAsks(listed) + FilterAsks(api, zoneId, filters[1..])
  }

  /** The calls List makes when the world stands still. */
  function Asks(api: Api, zone: string): seq<Ask> {
    [AskZone(zone)] + if zone in api.zoneIds then FilterAsks(api, api.zoneIds[zone], FILTERS) else []
  }

  lemma ChunkIsAnswer(api: Api, zoneId: string, filter: string, now: int, rest: seq<Heard>)
    ensures var listed := if (zoneId, filter) in api.templates then api.templates[(zoneId, filter)] else [];
            var heard := L.Answers(World(api), [AskTemplates(zoneId, filter)] + TagAsks(listed), now) + rest;
            && HeardChunk(zoneId, filter, heard) && ListedBy(heard[0]) == listed
            && Chunk(zoneId, filter, heard) == Answers(api, zoneId)(filter)
  {
    var listed := if (zoneId, filter) in api.templates then api.templates[(zoneId, filter)] else [];
    var heard := L.Answers(World(api), [AskTemplates(zoneId, filter)] + TagAsks(listed), now) + rest;
    assert heard[0] == L.Heard(AskTemplates(zoneId, filter), Reply(api, AskTemplates(zoneId, filter)), now);
    forall i | 0 <= i < |listed|
      ensures heard[1 + i].ask == AskTags(listed[i].id) && Joined(listed[i], heard[1 + i].answer) == Tagger(api)(listed[i])
    {
      assert heard[1 + i] == L.Heard(AskTags(listed[i].id), Reply(api, AskTags(listed[i].id)), now);
    }
    assert Chunk(zoneId, filter, heard) == Map(listed, Tagger(api));
  }

  lemma GatheredFirst(zoneId: string, filters: seq<string>, first: seq<Heard>, rest: seq<Heard>)
    requires filters != [] && HeardChunk(zoneId, filters[0], first + rest) && |first| == 1 + |ListedBy((first + rest)[0])|
    requires Gathered(zoneId, filters[1..], rest).Some?
    ensures Gathered(zoneId, filters, first + rest)
         == Some(Chunk(zoneId, filters[0], first + rest) + Gathered(zoneId, filters[1..], rest).value)
  {
    assert (first + rest)[|first|..] == rest;
  }

  lemma {:induction false} StillWorldGathers(api: Api, zoneId: string, filters: seq<string>, now: int)
    ensures Gathered(zoneId, filters, L.Answers(World(api), FilterAsks(api, zoneId, filters), now))
         == Some(FlatMap(filters, Answers(api, zoneId)))
    decreases |filters|
  {
    if filters != [] {
      var listed := if (zoneId, filters[0]) in api.templates then api.templates[(zoneId, filters[0])] else [];
      var first, others := [AskTemplates(zoneId, filters[0])] + TagAsks(listed), FilterAsks(api, zoneId, filters[1..]);
      StillWorldGathers(api, zoneId, filters[1..], now);
      L.AnswersAppend(World(api), first, others, now);
      ChunkIsAnswer(api, zoneId, filters[0], now, L.Answers(World(api), others, now));
      GatheredFirst(zoneId, filters, L.Answers(World(api), first, now), L.Answers(World(api), others, now));
      FlatMapFirst(filters, Answers(api, zoneId));
    }
  }

  lemma BuiltAfterZone(zone: string, first: Heard, rest: seq<Heard>)
    requires first.ask == AskZone(zone) && first.answer.Some? && first.answer.value.ZoneId?
    ensures var all := Gathered(first.answer.value.id, FILTERS, rest);
            Built(Provider.CacheKey(zone), [first] + rest) == if all.None? then None else Some(UniqBy(all.value, ById()))
  {
    assert ([first] + rest)[1..] == rest;
  }

  /** In a world that stands still these calls bring what List fetches, so that a call by itself, as
      AloneIsReadThrough of ListCache describes it, is the method List. */
  lemma StillWorldIsFetched(api: Api, zone: string, now: int)
    ensures Built(Provider.CacheKey(zone), L.Answers(World(api), Asks(api, zone), now)) == Fetched(api, zone)
  {
    var first := L.Heard(AskZone(zone), Reply(api, AskZone(zone)), now);
    assert L.Answers(World(api), [AskZone(zone)], now) == [first];
    if zone in api.zoneIds {
      var zoneId := api.zoneIds[zone];
      var others := FilterAsks(api, zoneId, FILTERS);
      L.AnswersAppend(World(api), [AskZone(zone)], others, now);
      StillWorldGathers(api, zoneId, FILTERS, now);
      BuiltAfterZone(zone, first, L.Answers(World(api), others, now));
    } else {
      assert Asks(api, zone) == [AskZone(zone)];
    }
  }

  /** `x` is the listed template with tags that the API would have answered within that time, or none. */
  ghost predicate TaggedBetween(past: seq<L.Epoch<Ask, ApiAnswer>>, from: int, to: int, t: ApiTemplate, x: Template) {
    && x.id == t.id && x.name == t.name && x.displayText == t.displayText && x.zone == t.zoneName && x.zoneId == t.zoneId
    && x.osType == t.osTypeId && x.osTypeName == t.osTypeName && x.status == t.status
    && x.isReady == t.isReady && x.isPublic == t.isPublic && x.isFeatured == t.isFeatured
    && (x.tags == map[] ||
        exists pairs :: x.tags == FromPairs(pairs) && L.HeldBetween(past, from, to, AskTags(t.id), TagList(pairs)))
  }

  /** `all` is what one filter brought within that time: nothing if its call failed. */
  ghost predicate BroughtBetween(past: seq<L.Epoch<Ask, ApiAnswer>>, from: int, to: int, zoneId: string, filter: string,
                                 all: seq<Template>) {
    all == [] || exists listed :: Brought(past, from, to, zoneId, filter, all, listed)
  }

  ghost predicate Brought(past: seq<L.Epoch<Ask, ApiAnswer>>, from: int, to: int, zoneId: string, filter: string,
                          all: seq<Template>, listed: seq<ApiTemplate>) {
    && L.HeldBetween(past, from, to, AskTemplates(zoneId, filter), Templates(listed))
    && |all| == |listed| && forall i | 0 <= i < |listed| :: TaggedBetween(past, from, to, listed[i], all[i])
  }

  lemma ChunkOfPieces(past: seq<L.Epoch<Ask, ApiAnswer>>, from: int, to: int, zoneId: string, filter: string, heard: seq<Heard>)
    requires HeardChunk(zoneId, filter, heard) && L.HeardOk(past, heard, from, to)
    ensures BroughtBetween(past, from, to, zoneId, filter, Chunk(zoneId, filter, heard))
  {
    var listed, all := ListedBy(heard[0]), Chunk(zoneId, filter, heard);
    if all != [] {
      L.PieceHeld(past, heard, 0, from, to);
      forall i | 0 <= i < |listed| ensures TaggedBetween(past, from, to, listed[i], all[i]) {
        assert all[i] == Joined(listed[i], heard[1 + i].answer);
        if heard[1 + i].answer.Some? {
          L.PieceHeld(past, heard, 1 + i, from, to);
        }
      }
      assert Brought(past, from, to, zoneId, filter, all, listed);
    }
  }

  function Itself(): seq<Template> -> seq<Template> { (s: seq<Template>) => s }

  lemma {:induction false} GatheredOfPieces(past: seq<L.Epoch<Ask, ApiAnswer>>, from: int, to: int, zoneId: string,
                                            filters: seq<string>, heard: seq<Heard>) returns (lists: seq<seq<Template>>)
    requires Gathered(zoneId, filters, heard).Some? && L.HeardOk(past, heard, from, to)
    ensures |lists| == |filters| && Gathered(zoneId, filters, heard).value == FlatMap(lists, Itself())
    ensures forall k | 0 <= k < |filters| :: BroughtBetween(past, from, to, zoneId, filters[k], lists[k])
    decreases |filters|
  {
    if filters == [] {
      lists := [];
    } else {
      var rest := heard[1 + |ListedBy(heard[0])|..];
      L.HeardOkTail(past, heard, 1 + |ListedBy(heard[0])|, from, to);
      var others := GatheredOfPieces(past, from, to, zoneId, filters[1..], rest);
      ChunkOfPieces(past, from, to, zoneId, filters[0], heard);
      lists := [Chunk(zoneId, filters[0], heard)] + others;
      assert lists[1..] == others;
      FlatMapFirst(lists, Itself());
    }
  }

  /** The listing is what the three filters brought for the zone, without repeated ids, all of it
      answered within that time. */
  ghost predicate MadeOfPieces(past: seq<L.Epoch<Ask, ApiAnswer>>, from: int, to: int, listing: seq<Template>,
                               zone: string, zoneId: string, lists: seq<seq<Template>>) {
    && L.HeldBetween(past, from, to, AskZone(zone), ZoneId(zoneId))
    && |lists| == |FILTERS| && listing == UniqBy(FlatMap(lists, Itself()), ById())
    && forall k | 0 <= k < |FILTERS| :: BroughtBetween(past, from, to, zoneId, FILTERS[k], lists[k])
  }

  lemma BuiltOfPieces(past: seq<L.Epoch<Ask, ApiAnswer>>, from: int, to: int, zone: string, heard: seq<Heard>)
    returns (zoneId: string, lists: seq<seq<Template>>)
    requires Built(Provider.CacheKey(zone), heard).Some? && L.HeardOk(past, heard, from, to)
    ensures MadeOfPieces(past, from, to, Built(Provider.CacheKey(zone), heard).value, zone, zoneId, lists)
  {
    ZoneKeysApart(zone, heard[0].ask.zone);
    zoneId := heard[0].answer.value.id;
    L.PieceHeld(past, heard, 0, from, to);
    L.HeardOkTail(past, heard, 1, from, to);
    lists := GatheredOfPieces(past, from, to, zoneId, FILTERS, heard[1..]);
  }

  /** In every interleaving a caller gets what its own terms resolve to in a listing of its own zone made
      of recent pieces: each is what the API would have answered at some moment of one fetch, which was stored
      no more than one TTL before the reply. */
  lemma ListingsAreRecentPieces(now: int, world: imap<Ask, ApiAnswer>, steps: seq<L.Step<Ask, ApiAnswer, seq<Term>>>, id: nat,
                                zone: string)
    returns (f: L.Fetch<Ask, ApiAnswer, seq<Template>>, zoneId: string, lists: seq<seq<Template>>)
    requires L.Runs(Code(), L.Start(now, world), steps)
    requires var s := L.After(Code(), L.Start(now, world), steps);
             && id in s.calls && s.calls[id].pc.Returned? && s.calls[id].pc.reply.Got?
             && s.calls[id].key == Provider.CacheKey(zone)
    ensures var s := L.After(Code(), L.Start(now, world), steps);
            var (c, reply) := (s.calls[id], s.calls[id].pc.reply);
            && reply.result == Answered(Some(reply.value), c.query)
            && f in s.fetches && f.at <= reply.at <= f.at + TTL
            && MadeOfPieces(s.past, f.start, f.at, reply.value, zone, zoneId, lists)
  {
    f := L.RepliesRefineAsking(Code(), now, world, steps, id);
    zoneId, lists := BuiltOfPieces(L.After(Code(), L.Start(now, world), steps).past, f.start, f.at, zone, f.heard);
  }

  // ----- the documented reading: the fields of a term are ANDed -----

  predicate Satisfies(n: Template, t: Term) {
    && (t.id != "" ==> n.id == t.id) && (t.name != "" ==> n.name == t.name)
    && (t.osType != "" ==> n.osTypeName == t.osType || n.osType == t.osType)
    && MatchesTags(n.tags, t.tags)
  }

  function Satisfier(t: Term): Template -> bool { n => Satisfies(n, t) }

  /** What the API documentation says a term selects. */
  function Documented(all: seq<Template>, t: Term): seq<Template> { Filter(all, Satisfier(t)) }

  /** The id alone, the name alone, or any combination of tags and OS type. */
  predicate OneKind(t: Term) {
    || (t.id != "" && t.name == "" && |t.tags| == 0 && t.osType == "")
    || (t.id == "" && t.name != "" && |t.tags| == 0 && t.osType == "")
    || (t.id == "" && t.name == "" && (|t.tags| > 0 || t.osType != ""))
  }

  ghost predicate AsDocumented(t: Term) {
    forall all | UniqueBy(all, ById()) && UniqueBy(all, ByName()) :: Select(all, t) == Documented(all, t)
  }

  lemma OneKindAgrees(all: seq<Template>, t: Term)
    requires OneKind(t) && UniqueBy(all, ById()) && UniqueBy(all, ByName())
    ensures Select(all, t) == Documented(all, t)
  {
    if t.id != "" {
      FindIsFilter(all, ById(), HasId(t.id), t.id);
      FilterSame(all, HasId(t.id), Satisfier(t));
    } else if t.name != "" {
      FindIsFilter(all, ByName(), HasName(t.name), t.name);
      FilterSame(all, HasName(t.name), Satisfier(t));
    } else if t.osType == "" {
      FilterSame(all, HasTags(t.tags), Satisfier(t));
    } else if |t.tags| > 0 {
      FilterTwice(all, HasOs(t.osType), HasTags(t.tags), Satisfier(t));
    } else {
      FilterSame(all, HasOs(t.osType), Satisfier(t));
    }
  }

  /** Any other term disagrees with its documentation on a listing of a single template. */
  lemma OtherKindsDisagree(t: Term) returns (all: seq<Template>)
    requires !OneKind(t)
    ensures |all| == 1 && Select(all, t) != Documented(all, t)
  {
    var n := Template(t.id, if t.id != "" && t.name != "" then t.name + "x" else t.name, "", "", "", "", "",
                      "Download Complete", true, true, true, map[]);
    all := [n];
    assert all[..0] == [];
    if |t.tags| > 0 {
      var k :| k in t.tags;
      assert !MatchesTags(n.tags, t.tags);
    }
    if t.id == "" && t.name == "" {
      assert Satisfies(n, t);
      FilterOne(all, Satisfier(t), 0);
    } else {
      assert t.id != "" ==> HasId(t.id)(n);
      assert t.name == n.name ==> HasName(t.name)(n);
      assert !Satisfies(n, t);
      FilterNone(all, Satisfier(t));
    }
  }

  /** The fallback reads a term as documented, on every listing with unique ids and names, exactly
      when the term sets the id alone, the name alone, or only tags and OS type. */
  lemma DocumentedIff(t: Term)
    ensures AsDocumented(t) <==> OneKind(t)
  {
    if OneKind(t) {
      forall all | UniqueBy(all, ById()) && UniqueBy(all, ByName()) ensures Select(all, t) == Documented(all, t) {
        OneKindAgrees(all, t);
      }
    } else {
      var all := OtherKindsDisagree(t);
      assert UniqueBy(all, ById()) && UniqueBy(all, ByName());
    }
  }

  /** Terms of one kind each resolve to the documented OR of their requirements. */
  lemma DocumentedResolve(all: seq<Template>, terms: seq<Term>, x: Template)
    requires UniqueBy(all, ById()) && UniqueBy(all, ByName())
    requires forall t | t in terms :: OneKind(t)
    ensures x in Resolve(all, terms) <==> x in all && x.isReady && x.status == "Download Complete" && exists t | t in terms :: Satisfies(x, t)
  {
    ResolveBy(all, terms, x);
    forall t | t in terms ensures x in Select(all, t) <==> x in all && Satisfies(x, t) {
      OneKindAgrees(all, t);
      FilterMembers(all, Satisfier(t), x);
    }
  }
}
