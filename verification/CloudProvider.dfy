/** The cloud provider as Karpenter sees it: creating a NodeClaim and deleting it, reading ownership
    back from tags, and drift. */
module CloudProvider {
  import opened Lists
  import opened Tags
  import opened TtlCache
  import opened Resolution
  import opened NodeClassApi
  import C = Conditions
  import V = InstanceProvider
  import P = ProviderId
  import R = InstanceRuns
  import N = NetworkProvider
  import T = TemplateProvider
  import I = InstanceTypeProvider
  import M = NodeClassRuns

  // ----- the Kubernetes store -----

  /** What a lookup in the store answers. */
  datatype Answer<+X> = Present(value: X) | Absent | Broken

  /** The NodeClasses, and for every NodePool the NodeClass it refers to, if any.  Lookups of the
      broken names fail for another reason than absence. */
  datatype Kube = Kube(
    classes: map<string, Object>, pools: map<string, Option<string>>, brokenClasses: set<string>, brokenPools: set<string>)

  function ClassNamed(k: Kube, name: string): Answer<Object> {
    if name in k.brokenClasses then Broken
    else if name !in k.classes || k.classes[name].deleted then Absent
    else Present(k.classes[name])
  }

  function PoolNamed(k: Kube, name: string): Answer<Option<string>> {
    if name in k.brokenPools then Broken
    else if name !in k.pools then Absent
    else Present(k.pools[name])
  }

  // ----- NodeClaims -----

  datatype Labels = Labels(
    zone: string, zoneId: string, networkId: string, offering: string, offeringId: string, template: string,
    templateId: string, nodePool: Option<string>)

  datatype NodeClaim = NodeClaim(
    labels: Labels, hash: Option<string>, providerId: string, imageId: string, created: int, deleting: bool)

  /** instanceToNodeClaim; the labels with a constant value are left out. */
  function ToNodeClaim(i: V.Instance): NodeClaim {
    NodeClaim(
      Labels(i.zone, i.zoneId, i.networkId, i.offering, i.offeringId, i.template, i.templateId, Tag(i.tags, V.NODE_POOL)),
      None, P.Format(i.zone, i.id), i.templateId, i.created, i.state == "Destroyed" || i.state == "Expunging")
  }

  function Tag(tags: TagMap, key: string): Option<string> { if key in tags then Some(tags[key]) else None }

  /** resolveNodeClassFromInstance. */
  function ClassOf(k: Kube, i: V.Instance): Answer<Object> {
    var name := Tag(i.tags, V.NODE_CLASS);
    if name.None? then Absent else ClassNamed(k, name.value)
  }

  // ----- Create -----

  datatype CreateReply = Ready(claim: NodeClaim) | InsufficientCapacity | LookupFailed | NotReady | NoInstanceTypes | NotCreated

  /** What the listings of the zone hold; None where a listing cannot be had. */
  datatype Listings = Listings(
    offerings: Option<seq<I.ServiceOffering>>, networks: Option<seq<N.Network>>, templates: Option<seq<T.Template>>)

  /** The order a NodeClass makes of the listings: its own terms choose, in its own zone. */
  function OrderOf(claim: V.Claim, spec: Spec, l: Listings, course: V.Course): V.Order
    requires l.offerings.Some?
  {
    V.Order(claim, spec, I.TypeNames(l.offerings.value, spec.offeringTerms), l.networks, l.templates, course)
  }

  predicate IsReady(nodeClass: Object) {
    var ready := C.Lookup(nodeClass.status.conditions, "Ready");
    ready.Some? && ready.value.status == C.True
  }

  /** The hash that Create records is that of the NodeClass it has read. */
  function Created(k: Kube, claim: V.Claim, l: Listings, hash: HashInput -> string, cloud: V.Cloud, cluster: string,
                   course: V.Course): (CreateReply, V.Cloud)
  {
    match ClassNamed(k, claim.className)
    case Absent => (InsufficientCapacity, cloud)
    case Broken => (LookupFailed, cloud)
    case Present(nodeClass) =>
      if !IsReady(nodeClass) then (NotReady, cloud)
      else CreatedFor(nodeClass.spec, claim, l, hash, cloud, cluster, course)
  }

  function CreatedFor(spec: Spec, claim: V.Claim, l: Listings, hash: HashInput -> string, cloud: V.Cloud, cluster: string,
                      course: V.Course): (CreateReply, V.Cloud)
  {
    if l.offerings.None? then (NoInstanceTypes, cloud)
    else
      var (after, instance) := V.Created(cloud, cluster, OrderOf(claim, spec, l, course));
      if instance.None? then (NotCreated, after)
      else (Ready(ToNodeClaim(instance.value).(hash := Some(Hash(hash, spec)))), after)
  }

  // ----- Get, List and Delete -----

  datatype GetReply = Claimed(claim: NodeClaim) | NoSuchId | NoInstance | NotRead | ClassNotRead

  /** Get: the NodeClass is looked up, and its absence is no obstacle. */
  function Got(k: Kube, providerId: string, cloud: V.Cloud, cache: Cache<V.Instance>, now: int, f: V.Faults)
    : (GetReply, Cache<V.Instance>)
  {
    var id := P.Parse(providerId);
    if id.None? then (NoSuchId, cache)
    else
      var (r, after) := V.Got(cloud, cache, now, id.value, f);
      match r
      case NotFound => (NoInstance, after)
      case QueryFailed => (NotRead, after)
      case Found(i) => (if ClassOf(k, i).Broken? then ClassNotRead else Claimed(ToNodeClaim(i)), after)
  }

  function AsClaim(): V.Instance -> NodeClaim { (i: V.Instance) => ToNodeClaim(i) }

  /** List: the claims of all instances, or a failure if a NodeClass cannot be looked up. */
  function ClaimsOf(k: Kube, instances: seq<V.Instance>): Option<seq<NodeClaim>> {
    if exists n | 0 <= n < |instances| :: ClassOf(k, instances[n]).Broken? then None
    else Some(Map(instances, AsClaim()))
  }

  datatype DeleteReply = Gone | BadProviderId | Failed(reason: V.DeleteReply)

  function Deleted(claim: NodeClaim, cloud: V.Cloud, cache: Cache<V.Instance>, now: int, f: V.Faults)
    : (DeleteReply, V.Cloud, Cache<V.Instance>)
  {
    var id := P.Parse(claim.providerId);
    if id.None? then (BadProviderId, cloud, cache)
    else
      var (r, after, rest) := V.Removed(cloud, cache, now, id.value, f);
      (if r == V.Deleted then Gone else Failed(r), after, rest)
  }

  // ----- drift -----

  datatype Drift = NotDrifted | Drifted | Unknown

  /** The NodeClass that a NodePool refers to. */
  function ClassOfPool(k: Kube, pool: Option<string>): Answer<Object> {
    if pool.None? then Absent
    else
      match PoolNamed(k, pool.value)
      case Broken => Broken
      case Absent => Absent
      case Present(ref) => if ref.None? then Absent else ClassNamed(k, ref.value)
  }

  function OrElse<X>(o: Option<X>, zero: X): X { if o.Some? then o.value else zero }

  function DriftOf(k: Kube, claim: NodeClaim, hash: HashInput -> string): Drift {
    match ClassOfPool(k, claim.labels.nodePool)
    case Broken => Unknown
    case Absent => NotDrifted
    case Present(nodeClass) => if OrElse(claim.hash, "") == Hash(hash, nodeClass.spec) then NotDrifted else Drifted
  }

  // ----- the provider -----

  class CloudProvider {
    const instances: V.Provider
    const types: I.Provider

    constructor (instances: V.Provider, types: I.Provider)
      ensures this.instances == instances && this.types == types
    {
      this.instances, this.types := instances, types;
    }

    static function OfferingsRead(c: Cache<seq<I.ServiceOffering>>, zone: string, now: int, api: Option<seq<I.ServiceOffering>>)
      : (Option<seq<I.ServiceOffering>>, Cache<seq<I.ServiceOffering>>)
    {
      ReadThrough(c, I.Provider.CacheKey(zone), now, api)
    }

    /** What the listings hold for the zone of the NodeClass, read through the caches. */
    static function ListingsFrom(k: Kube, claim: V.Claim, api: Option<seq<I.ServiceOffering>>, from: V.Sources,
                                 types: Cache<seq<I.ServiceOffering>>, nets: Cache<seq<N.Network>>, tpls: Cache<seq<T.Template>>)
      : Listings
    {
      match ClassNamed(k, claim.className)
      case Present(nodeClass) =>
        var zone := nodeClass.spec.zone;
        Listings(OfferingsRead(types, zone, from.now, api).0, V.NetworksRead(nets, zone, from).0, V.TemplatesRead(tpls, zone, from).0)
      case _ => Listings(None, None, None)
    }

    /** The three caches after a Create: only the listings it asked for are read. */
    static function CachesAfter(k: Kube, claim: V.Claim, course: V.Course, api: Option<seq<I.ServiceOffering>>, from: V.Sources,
                                types: Cache<seq<I.ServiceOffering>>, nets: Cache<seq<N.Network>>, tpls: Cache<seq<T.Template>>)
      : (Cache<seq<I.ServiceOffering>>, Cache<seq<N.Network>>, Cache<seq<T.Template>>)
    {
      match ClassNamed(k, claim.className)
      case Present(nodeClass) =>
        if !IsReady(nodeClass) then (types, nets, tpls)
        else
          var (offerings, after) := OfferingsRead(types, nodeClass.spec.zone, from.now, api);
          if offerings.None? then (after, nets, tpls)
          else
            var o := V.OrderFrom(claim, nodeClass.spec, I.TypeNames(offerings.value, nodeClass.spec.offeringTerms), course, from, nets, tpls);
            (after, V.NetworkCacheAfter(o, nets, from), V.TemplateCacheAfter(o, tpls, from))
      case _ => (types, nets, tpls)
    }

    /** Create, with all three listings read through their caches. */
    method Create(k: Kube, claim: V.Claim, hash: HashInput -> string, course: V.Course,
                  api: Option<seq<I.ServiceOffering>>, from: V.Sources) returns (r: CreateReply)
      requires instances.templates.Valid()
      modifies types, instances.api, instances.networks, instances.templates
      ensures instances.templates.Valid()
      ensures var l := ListingsFrom(k, claim, api, from, old(types.cache), old(instances.networks.cache), old(instances.templates.Contents()));
              (r, instances.api.Value()) == Created(k, claim, l, hash, old(instances.api.Value()), instances.cluster, course)
      ensures (types.cache, instances.networks.cache, instances.templates.Contents()) ==
              CachesAfter(k, claim, course, api, from, old(types.cache), old(instances.networks.cache), old(instances.templates.Contents()))
    {
      var found := ClassNamed(k, claim.className);
      if found.Absent? {
        return InsufficientCapacity;
      }
      if found.Broken? {
        return LookupFailed;
      }
      if !IsReady(found.value) {
        return NotReady;
      }
      var spec := found.value.spec;
      var instanceTypes := TypesFor(spec, api, from.now);
      if instanceTypes.None? {
        return NoInstanceTypes;
      }
      var instance := instances.Create(claim, spec, instanceTypes.value, course, from);
      if instance.None? {
        return NotCreated;
      }
      var nodeClaim := ToNodeClaim(instance.value);
      return Ready(nodeClaim.(hash := Some(Hash(hash, spec))));
    }

    /** The instance types of the NodeClass; the other providers are left alone. */
    method TypesFor(spec: Spec, api: Option<seq<I.ServiceOffering>>, now: int) returns (r: Option<seq<string>>)
      requires instances.templates.Valid()
      modifies types
      ensures instances.templates.Valid() && instances.templates.Contents() == old(instances.templates.Contents())
      ensures var (all, after) := OfferingsRead(old(types.cache), spec.zone, now, api);
              types.cache == after && r == if all.None? then None else Some(I.TypeNames(all.value, spec.offeringTerms))
    {
      r := types.List(api, spec.offeringTerms, spec.zone, now);
    }

    method Get(k: Kube, providerId: string, now: int, f: V.Faults) returns (r: GetReply)
      modifies instances
      ensures (r, instances.cache) == Got(k, providerId, instances.api.Value(), old(instances.cache), now, f)
    {
      var id := P.Parse(providerId);
      if id.None? {
        return NoSuchId;
      }
      var got := instances.Get(id.value, now, f);
      if got.NotFound? {
        return NoInstance;
      }
      if got.QueryFailed? {
        return NotRead;
      }
      if ClassOf(k, got.instance).Broken? {
        return ClassNotRead;
      }
      return Claimed(ToNodeClaim(got.instance));
    }

    method List(k: Kube, fails: bool, unreadable: set<string>) returns (r: Option<seq<NodeClaim>>)
      ensures r == if fails then None else ClaimsOf(k, V.Listed(instances.api.Value(), unreadable))
    {
      var listed := instances.List(fails, unreadable);
      if listed.None? {
        return None;
      }
      var claims: seq<NodeClaim> := [];
      for n := 0 to |listed.value|
        invariant claims == Map(listed.value[..n], AsClaim())
        invariant forall m | 0 <= m < n :: !ClassOf(k, listed.value[m]).Broken?
      {
        if ClassOf(k, listed.value[n]).Broken? {
          return None;
        }
        claims := claims + [ToNodeClaim(listed.value[n])];
      }
      assert listed.value[..|listed.value|] == listed.value;
      return Some(claims);
    }

    method Delete(claim: NodeClaim, now: int, f: V.Faults) returns (r: DeleteReply)
      modifies instances, instances.api
      ensures (r, instances.api.Value(), instances.cache) ==
              Deleted(claim, old(instances.api.Value()), old(instances.cache), now, f)
    {
      var id := P.Parse(claim.providerId);
      if id.None? {
        return BadProviderId;
      }
      var reply := instances.Delete(id.value, now, f);
      return if reply == V.Deleted then Gone else Failed(reply);
    }

    method IsDrifted(k: Kube, claim: NodeClaim, hash: HashInput -> string) returns (d: Drift)
      ensures d == DriftOf(k, claim, hash)
    {
      if claim.labels.nodePool.None? {
        return NotDrifted;
      }
      var pool := PoolNamed(k, claim.labels.nodePool.value);
      if !pool.Present? {
        return if pool.Broken? then Unknown else NotDrifted;
      }
      if pool.value.None? {
        return NotDrifted;
      }
      var nodeClass := ClassNamed(k, pool.value.value);
      if !nodeClass.Present? {
        return if nodeClass.Broken? then Unknown else NotDrifted;
      }
      if OrElse(claim.hash, "") != Hash(hash, nodeClass.value.spec) {
        return Drifted;
      }
      return NotDrifted;
    }
  }

  // ----- what Create chooses -----

  /** What a live entry under the key holds, or else what the API answers now. */
  ghost predicate ReadsFor<X>(cache: Cache<X>, key: string, now: int, api: Option<X>, r: Option<X>) {
    if key in cache && now <= cache[key].setAt + TTL then r == Some(cache[key].value) else r == api
  }

  /** Create works on listings of the zone of its NodeClass: those cached for that zone, or else those
      the API gives for it. */
  lemma ListingsAreOfTheZone(k: Kube, claim: V.Claim, api: Option<seq<I.ServiceOffering>>, from: V.Sources,
                             types: Cache<seq<I.ServiceOffering>>, nets: Cache<seq<N.Network>>, tpls: Cache<seq<T.Template>>)
    requires claim.className !in k.brokenClasses && claim.className in k.classes && !k.classes[claim.className].deleted
    ensures var zone, l := k.classes[claim.className].spec.zone, CloudProvider.ListingsFrom(k, claim, api, from, types, nets, tpls);
            && ReadsFor(types, I.Provider.CacheKey(zone), from.now, api, l.offerings)
            && ReadsFor(nets, N.Provider.CacheKey(zone), from.now, N.Fetched(from.networks, zone), l.networks)
            && ReadsFor(tpls, T.Provider.CacheKey(zone), from.now, T.Fetched(from.templates, zone), l.templates)
  {}

  /** The first condition of type Ready has status True; nothing else about it counts. */
  ghost predicate FirstReadyIsTrue(conditions: seq<C.Condition>) {
    exists i | 0 <= i < |conditions| ::
      conditions[i].kind == "Ready" && conditions[i].status == C.True && forall j | 0 <= j < i :: conditions[j].kind != "Ready"
  }

  lemma ReadyIff(o: Object)
    ensures IsReady(o) <==> FirstReadyIsTrue(o.status.conditions)
  {
    C.LookupFinds(o.status.conditions, "Ready");
  }

  ghost predicate ClassThere(k: Kube, name: string) {
    name !in k.brokenClasses && name in k.classes && !k.classes[name].deleted
  }

  /** The NodeClass is there and Ready=True and the offerings can be listed: Create orders a VM. */
  ghost predicate Proceeds(k: Kube, claim: V.Claim, l: Listings) {
    ClassThere(k, claim.className) && FirstReadyIsTrue(k.classes[claim.className].status.conditions) && l.offerings.Some?
  }

  ghost predicate Succeeds(k: Kube, claim: V.Claim, l: Listings, course: V.Course) {
    Proceeds(k, claim, l) && R.Succeeds(OrderOf(claim, k.classes[claim.className].spec, l, course))
  }

  /** Create returns a claim exactly when it can order a VM, whose network, template and offering
      resolve, and that VM comes to run; unless it can order one it leaves the cloud alone. */
  lemma CreateSucceedsIff(k: Kube, claim: V.Claim, l: Listings, hash: HashInput -> string, cloud: V.Cloud, cluster: string,
                          course: V.Course)
    ensures var (r, after) := Created(k, claim, l, hash, cloud, cluster, course);
            && (r.Ready? <==> Succeeds(k, claim, l, course))
            && (r.Ready? || r.NotCreated? <==> Proceeds(k, claim, l))
            && (!Proceeds(k, claim, l) ==> after == cloud)
            && (r.LookupFailed? <==> claim.className in k.brokenClasses)
            && (r.InsufficientCapacity? <==>
                  claim.className !in k.brokenClasses && (claim.className !in k.classes || k.classes[claim.className].deleted))
            && (r.NotReady? <==> ClassThere(k, claim.className) && !FirstReadyIsTrue(k.classes[claim.className].status.conditions))
  {
    if claim.className in k.classes {
      ReadyIff(k.classes[claim.className]);
    }
    if Proceeds(k, claim, l) {
      R.CreateSucceedsIff(cloud, cluster, OrderOf(claim, k.classes[claim.className].spec, l, course));
    }
  }

  /** Whatever the controller, the users and the providers have done before: a Create that gets to ask
      for a VM finds a NodeClass whose stored lists are the resolution of the generation that Ready=True
      observed, against the answers of one reconciliation; of the spec that Create uses, unless that
      has been edited since. */
  lemma CreateFollowsResolution(spec: Spec, steps: seq<M.Step>, k: Kube, claim: V.Claim, l: Listings)
    requires M.Runs(M.Start(spec), steps) && M.After(M.Start(spec), steps).stored.Some?
    requires claim.className in k.classes && k.classes[claim.className] == M.After(M.Start(spec), steps).stored.value
    requires Proceeds(k, claim, l)
    ensures var s := M.After(M.Start(spec), steps);
            var o := s.stored.value;
            && s.landed.Some? && s.landed.value.worker in s.answers && s.landed.value.generation in s.specs
            && s.landed.value.generation <= o.generation
            && M.ShowsResolution(s.answers[s.landed.value.worker], s.specs[s.landed.value.generation], o.status)
            && (s.landed.value.generation == o.generation ==> M.ShowsResolution(s.answers[s.landed.value.worker], o.spec, o.status))
  {
    C.LookupFinds(k.classes[claim.className].status.conditions, "Ready");
    M.ReadyMeansResolved(spec, steps);
  }

  /** After any run of the controller, an edit of a NodeClass that is Ready=True leaves Create ordering a
      VM, and from the edited spec: it returns a claim exactly when what that spec asks for can be
      had. */
  lemma EditedIsStillCreated(spec: Spec, steps: seq<M.Step>, edited: Spec, k: Kube, claim: V.Claim, l: Listings,
                             hash: HashInput -> string, cloud: V.Cloud, cluster: string, course: V.Course)
    requires M.Runs(M.Start(spec), steps) && M.After(M.Start(spec), steps).stored.Some?
    requires var o := M.After(M.Start(spec), steps).stored.value;
             !o.deleted && M.ReadyOf(o.status).Some? && M.ReadyOf(o.status).value.status == C.True
    requires claim.className !in k.brokenClasses && claim.className in k.classes && l.offerings.Some?
    requires Some(k.classes[claim.className]) == M.Next(M.After(M.Start(spec), steps), M.Edit(edited)).stored
    ensures var (r, after) := Created(k, claim, l, hash, cloud, cluster, course);
            var o := OrderOf(claim, edited, l, course);
            && after == V.Created(cloud, cluster, o).0
            && (if R.Succeeds(o) then r.Ready? && r.claim.hash == Some(Hash(hash, edited)) else r == NotCreated)
            && M.ReadyOf(k.classes[claim.className].status).value.observed < k.classes[claim.className].generation
  {
    M.EditLeavesReady(spec, steps, edited);
    C.LookupFinds(k.classes[claim.className].status.conditions, "Ready");
    CreateSucceedsIff(k, claim, l, hash, cloud, cluster, course);
  }

  /** The NodeClaim names the network, the template and the offering that the terms of the NodeClass
      resolve to first in the listings of its zone, each read declaratively. */
  lemma CreatedFromFirstChoices(k: Kube, claim: V.Claim, l: Listings, hash: HashInput -> string, cloud: V.Cloud, cluster: string,
                                course: V.Course)
    returns (offerings: seq<I.ServiceOffering>, networks: seq<N.Network>, templates: seq<T.Template>)
    requires Succeeds(k, claim, l, course)
    ensures Created(k, claim, l, hash, cloud, cluster, course).0.Ready?
    ensures l.offerings.Some? && l.networks.Some? && l.templates.Some? && offerings != [] && networks != [] && templates != []
    ensures var spec := k.classes[claim.className].spec;
            && KeepsFirstUsable(FlatMap(spec.offeringTerms, I.Selector(l.offerings.value)), I.ById(), I.Everything(), offerings)
            && KeepsFirstUsable(FlatMap(spec.networkTerms, N.Selector(l.networks.value)), N.ById(), N.Usable(), networks)
            && KeepsFirstUsable(FlatMap(spec.templateTerms, T.Selector(l.templates.value)), T.ById(), T.Usable(), templates)
    ensures var spec, labels := k.classes[claim.className].spec, Created(k, claim, l, hash, cloud, cluster, course).0.claim.labels;
            && labels.offering == offerings[0].name && labels.networkId == networks[0].id && labels.templateId == templates[0].id
            && labels.zone == spec.zone && spec.zone in course.zoneIds && labels.zoneId == course.zoneIds[spec.zone]
            && labels.template == templates[0].name
            && offerings[0].name in course.offeringIds && labels.offeringId == course.offeringIds[offerings[0].name]
    ensures var spec, created := k.classes[claim.className].spec, Created(k, claim, l, hash, cloud, cluster, course).0.claim;
            && created.providerId == "cloudstack://" + spec.zone + "/" + course.id && created.imageId == templates[0].id
            && created.created == course.at && !created.deleting && created.hash == Some(hash(Input(spec)))
  {
    CreateSucceedsIff(k, claim, l, hash, cloud, cluster, course);
    var spec := k.classes[claim.className].spec;
    offerings := I.Chosen(l.offerings.value, spec.offeringTerms);
    I.ChosenIff(l.offerings.value, spec.offeringTerms, offerings);
    networks, templates := R.CreatedFromFirstChoices(cloud, cluster, OrderOf(claim, spec, l, course));
  }

  /** Every list of terms resolves to something. */
  predicate EachResolves(spec: Spec, l: Listings) {
    && l.offerings.Some? && I.Chosen(l.offerings.value, spec.offeringTerms) != []
    && N.Answered(l.networks, spec.networkTerms).Ok? && T.Answered(l.templates, spec.templateTerms).Ok?
  }

  lemma TypesExtend(all: seq<I.ServiceOffering>, terms: seq<I.Term>, extra: seq<I.Term>) returns (more: seq<string>)
    ensures I.TypeNames(all, terms + extra) == I.TypeNames(all, terms) + more
  {
    I.AppendKeepsChoices(all, terms, extra);
    more := I.TypeNames(all, terms + extra)[|I.TypeNames(all, terms)|..];
  }

  lemma OrderAppended(claim: V.Claim, spec: Spec, l: Listings, course: V.Course,
                      networkTerms: seq<N.Term>, offeringTerms: seq<I.Term>, templateTerms: seq<T.Term>)
    returns (more: seq<string>)
    requires l.offerings.Some?
    ensures OrderOf(claim, R.SpecWithTerms(spec, networkTerms, offeringTerms, templateTerms), l, course)
         == R.WithTerms(OrderOf(claim, spec, l, course), networkTerms, offeringTerms, templateTerms, more)
  {
    more := TypesExtend(l.offerings.value, spec.offeringTerms, offeringTerms);
  }

  lemma CreatedForAppended(claim: V.Claim, spec: Spec, l: Listings, hash: HashInput -> string, cloud: V.Cloud, cluster: string,
                           course: V.Course, networkTerms: seq<N.Term>, offeringTerms: seq<I.Term>, templateTerms: seq<T.Term>)
    requires EachResolves(spec, l)
    ensures var spec' := R.SpecWithTerms(spec, networkTerms, offeringTerms, templateTerms);
            var (r, after) := CreatedFor(spec, claim, l, hash, cloud, cluster, course);
            CreatedFor(spec', claim, l, hash, cloud, cluster, course) ==
              (if r.Ready? then Ready(r.claim.(hash := Some(Hash(hash, spec')))) else r, after)
  {
    var more := OrderAppended(claim, spec, l, course, networkTerms, offeringTerms, templateTerms);
    R.AppendedTermsAreIgnored(cloud, cluster, OrderOf(claim, spec, l, course), networkTerms, offeringTerms, templateTerms, more);
  }

  function WithSpec(k: Kube, name: string, spec: Spec): Kube
    requires name in k.classes
  {
    k.(classes := k.classes[name := k.classes[name].(spec := spec)])
  }

  lemma ClassWithSpec(k: Kube, name: string, spec: Spec)
    requires name in k.classes
    ensures ClassNamed(WithSpec(k, name, spec), name) ==
            if ClassNamed(k, name).Present? then Present(k.classes[name].(spec := spec)) else ClassNamed(k, name)
  {}

  /** Adding terms at the end of lists that resolve to something changes nothing about a Create but the
      hash it records: the same VM in the same cloud, or the same failure. */
  lemma AppendedTermsAreIgnored(k: Kube, claim: V.Claim, l: Listings, hash: HashInput -> string, cloud: V.Cloud, cluster: string,
                                course: V.Course, networkTerms: seq<N.Term>, offeringTerms: seq<I.Term>, templateTerms: seq<T.Term>)
    requires claim.className in k.classes && EachResolves(k.classes[claim.className].spec, l)
    ensures var spec' := R.SpecWithTerms(k.classes[claim.className].spec, networkTerms, offeringTerms, templateTerms);
            var (r, after) := Created(k, claim, l, hash, cloud, cluster, course);
            Created(WithSpec(k, claim.className, spec'), claim, l, hash, cloud, cluster, course) ==
              (if r.Ready? then Ready(r.claim.(hash := Some(Hash(hash, spec')))) else r, after)
  {
    var spec := k.classes[claim.className].spec;
    ClassWithSpec(k, claim.className, R.SpecWithTerms(spec, networkTerms, offeringTerms, templateTerms));
    CreatedForAppended(claim, spec, l, hash, cloud, cluster, course, networkTerms, offeringTerms, templateTerms);
  }

  /** The cloud looks an offering up by name in the listing: the first that has it. */
  ghost predicate LooksUpIn(offeringIds: map<string, string>, all: seq<I.ServiceOffering>) {
    && (forall name :: name in offeringIds <==> HasKey(all, I.ByName(), name))
    && (forall o | Leads(all, I.ByName(), o) :: o.name in offeringIds && offeringIds[o.name] == o.id)
  }

  /** The offering is chosen by its id or name, but deployed by its name: the VM gets the offering
      that was chosen exactly when that is the first listed with its name. */
  lemma ChosenOfferingIsUsedIff(k: Kube, claim: V.Claim, l: Listings, hash: HashInput -> string, cloud: V.Cloud, cluster: string,
                                course: V.Course) returns (chosen: I.ServiceOffering)
    requires Succeeds(k, claim, l, course)
    requires LooksUpIn(course.offeringIds, l.offerings.value) && UniqueBy(l.offerings.value, I.ById())
    ensures I.Chosen(l.offerings.value, k.classes[claim.className].spec.offeringTerms) != []
    ensures chosen == I.Chosen(l.offerings.value, k.classes[claim.className].spec.offeringTerms)[0]
    ensures Created(k, claim, l, hash, cloud, cluster, course).0.Ready?
    ensures Created(k, claim, l, hash, cloud, cluster, course).0.claim.labels.offeringId == chosen.id
            <==> Leads(l.offerings.value, I.ByName(), chosen)
  {
    var offerings, _, _ := CreatedFromFirstChoices(k, claim, l, hash, cloud, cluster, course);
    I.ChosenIff(l.offerings.value, k.classes[claim.className].spec.offeringTerms, offerings);
    chosen := offerings[0];
    ChosenIsFirstOfItsNameIff(l.offerings.value, k.classes[claim.className].spec.offeringTerms, course.offeringIds);
  }

  lemma ChosenIsFirstOfItsNameIff(all: seq<I.ServiceOffering>, terms: seq<I.Term>, offeringIds: map<string, string>)
    requires LooksUpIn(offeringIds, all) && UniqueBy(all, I.ById()) && I.Chosen(all, terms) != []
    ensures var o := I.Chosen(all, terms)[0];
            o.name in offeringIds && (offeringIds[o.name] == o.id <==> Leads(all, I.ByName(), o))
  {
    var o := I.Chosen(all, terms)[0];
    I.ChosenBy(all, terms, o);
    FirstOfItsNameIff(all, offeringIds, o);
  }

  lemma FirstOfItsNameIff(all: seq<I.ServiceOffering>, offeringIds: map<string, string>, o: I.ServiceOffering)
    requires LooksUpIn(offeringIds, all) && UniqueBy(all, I.ById()) && o in all
    ensures o.name in offeringIds && (offeringIds[o.name] == o.id <==> Leads(all, I.ByName(), o))
  {
    var n :| 0 <= n < |all| && all[n] == o;
    assert HasKey(all, I.ByName(), o.name);
    var i := FirstWithKey(all, I.ByName(), o.name);
    assert Leads(all, I.ByName(), all[i]);
    assert I.ById()(all[i]) == I.ById()(all[n]) ==> i == n;
  }

  // ----- the provider id -----

  /** Deleting the NodeClaim that Create returned asks for the VM that Create deployed, exactly when
      that VM's id has no slash. */
  lemma DeleteTargetsCreatedIff(k: Kube, claim: V.Claim, l: Listings, hash: HashInput -> string, cloud: V.Cloud, cluster: string,
                                course: V.Course)
    requires Succeeds(k, claim, l, course)
    ensures Created(k, claim, l, hash, cloud, cluster, course).0.Ready?
    ensures P.Parse(Created(k, claim, l, hash, cloud, cluster, course).0.claim.providerId) == Some(course.id) <==> '/' !in course.id
  {
    CreateSucceedsIff(k, claim, l, hash, cloud, cluster, course);
    P.RoundTripIff(k.classes[claim.className].spec.zone, course.id);
  }

  /** Create followed by Delete of the claim it returned leaves the cloud's VMs and tags as they were. */
  lemma CreateThenDelete(k: Kube, claim: V.Claim, l: Listings, hash: HashInput -> string, cloud: V.Cloud, cluster: string,
                         course: V.Course, used: set<string>, cache: Cache<V.Instance>, now: int)
    requires R.CloudOk(cloud, used) && course.id !in used && '/' !in course.id
    requires Succeeds(k, claim, l, course)
    ensures Created(k, claim, l, hash, cloud, cluster, course).0.Ready?
    ensures var (r, after) := Created(k, claim, l, hash, cloud, cluster, course);
            var (d, final, _) := Deleted(r.claim, after, cache, now, V.Faults(false, false, false));
            && d == Gone
            && (forall v :: v in final.vms <==> v in cloud.vms)
            && (forall id :: V.TagsOf(final, id) == V.TagsOf(cloud, id))
  {
    CreateSucceedsIff(k, claim, l, hash, cloud, cluster, course);
    var (r, after) := Created(k, claim, l, hash, cloud, cluster, course);
    var id := course.id;
    DeleteTargetsCreatedIff(k, claim, l, hash, cloud, cluster, course);
    R.CreatedFacts(cloud, cluster, OrderOf(claim, k.classes[claim.className].spec, l, course), used);
    DeleteRemoves(r.claim, id, after, cache, now);
    var final := V.Destroyed(after, id);
    R.DestroyedOk(after, id, used + {id});
    R.OnlyAboutTwice(cloud, after, final, id);
    AbsentIsNotListed(cloud, id, used);
    AbsentIsNotListed(final, id, used + {id});
  }

  lemma DeleteRemoves(claim: NodeClaim, id: string, cloud: V.Cloud, cache: Cache<V.Instance>, now: int)
    requires P.Parse(claim.providerId) == Some(id) && V.Exists(cloud, id)
    ensures var (d, after, _) := Deleted(claim, cloud, cache, now, V.Faults(false, false, false));
            d == Gone && after == V.Destroyed(cloud, id)
  {
    R.FoundIffExists(cloud, id);
  }

  lemma AbsentIsNotListed(c: V.Cloud, id: string, used: set<string>)
    requires R.CloudOk(c, used) && !V.Exists(c, id)
    ensures V.TagsOf(c, id) == map[] && forall v: V.VM | v.id == id :: v !in c.vms
  {
    forall v: V.VM | v in c.vms ensures v.id != id {
      var i :| 0 <= i < |c.vms| && c.vms[i] == v;
      assert V.IdOf()(c.vms[i]) == v.id;
    }
  }

  // ----- ownership read back from tags -----

  /** What the admission rules allow as tags of a NodeClass. */
  ghost predicate Admitted(userTags: TagMap) {
    "" !in userTags && V.NODE_POOL !in userTags && V.NODE_CLAIM !in userTags && V.NODE_CLASS !in userTags
  }

  /** The tags of a VM, written by createTags and read back by getTags in whatever order the API lists
      them, name the NodeClass that created it, the NodeClaim and the NodePool, if any; the
      managed-by key is there, with its usual value unless the user has set another. */
  lemma TagRoundTrip(cluster: string, o: V.Owner, listing: seq<Pair>)
    requires Admitted(o.userTags) && IsListing(listing, V.TagsFor(cluster, o))
    ensures var tags := FromPairs(listing);
            && Tag(tags, "karpenter.k8s.cloudstack/nodeclass") == Some(o.nodeClass)
            && Tag(tags, "karpenter.sh/nodeclaim") == Some(o.nodeClaim)
            && Tag(tags, "karpenter.sh/nodepool") == o.nodePool
            && Tag(tags, "karpenter.sh/managed-by") ==
               Some(if "karpenter.sh/managed-by" in o.userTags then o.userTags["karpenter.sh/managed-by"] else "karpenter")
  {
    ListingRoundTrip(listing, V.TagsFor(cluster, o));
    OwnTagsNameOwner(cluster, o);
  }

  lemma OwnTagsNameOwner(cluster: string, o: V.Owner)
    ensures var tags := V.OwnTags(cluster, o);
            && Tag(tags, V.NODE_CLASS) == Some(o.nodeClass) && Tag(tags, V.NODE_CLAIM) == Some(o.nodeClaim)
            && Tag(tags, V.NODE_POOL) == o.nodePool && Tag(tags, V.MANAGED_BY) == Some("karpenter")
  {
    R.ClusterTagIsApart(cluster);
    R.KeysApart();
  }

  /** Without the admission rules the NodeClass is still named rightly exactly when the user's tags do
      not say otherwise. */
  lemma NodeClassRecoveredIff(cluster: string, o: V.Owner)
    ensures Tag(V.TagsFor(cluster, o), V.NODE_CLASS) == Some(o.nodeClass) <==>
            Tag(o.userTags, V.NODE_CLASS) in {None, Some(o.nodeClass)}
  {
    OwnTagsNameOwner(cluster, o);
  }

  /** Reading a new VM back gives the NodeClaim that Create returned, but for the recorded hash, and
      finds the NodeClass it was created from. */
  lemma ReadBack(k: Kube, claim: V.Claim, l: Listings, hash: HashInput -> string, cloud: V.Cloud, cluster: string,
                 course: V.Course, used: set<string>, cache: Cache<V.Instance>, now: int) returns (i: V.Instance)
    requires R.CloudOk(cloud, used) && course.id !in used && '/' !in course.id && !course.tagsRefused
    requires Lookup(cache, V.Key(course.id), now).None?
    requires Succeeds(k, claim, l, course)
    requires Admitted(k.classes[claim.className].spec.tags)
    ensures Created(k, claim, l, hash, cloud, cluster, course).0.Ready?
    ensures var (r, after) := Created(k, claim, l, hash, cloud, cluster, course);
            && Got(k, r.claim.providerId, after, cache, now, V.Faults(false, false, false)).0 == Claimed(r.claim.(hash := None))
            && V.Got(after, cache, now, course.id, V.Faults(false, false, false)).0 == V.Found(i)
            && ToNodeClaim(i) == r.claim.(hash := None)
            && ToNodeClaim(i).labels.nodePool == claim.nodePool
            && ClassOf(k, i) == ClassNamed(k, claim.className) == Present(k.classes[claim.className])
  {
    CreateSucceedsIff(k, claim, l, hash, cloud, cluster, course);
    var o := OrderOf(claim, k.classes[claim.className].spec, l, course);
    i := V.Created(cloud, cluster, o).1.value;
    DeleteTargetsCreatedIff(k, claim, l, hash, cloud, cluster, course);
    R.GetFindsCreated(cloud, cluster, o, used, cache, now);
    OwnTagsNameOwner(cluster, V.OwnerOf(o));
    R.CreatedFacts(cloud, cluster, o, used);
  }

  /** Get gives every VM that List shows as the very claim that List shows. */
  lemma GetAgreesWithList(k: Kube, cloud: V.Cloud, used: set<string>, cache: Cache<V.Instance>, now: int, id: string, zone: string)
    requires R.CloudOk(cloud, used) && '/' !in id && Lookup(cache, V.Key(id), now).None?
    requires V.Exists(cloud, id) && V.MANAGED_BY in V.TagsOf(cloud, id)
    requires ClaimsOf(k, V.Listed(cloud, {})).Some?
    ensures var r := Got(k, P.Format(zone, id), cloud, cache, now, V.Faults(false, false, false)).0;
            r.Claimed? && r.claim in ClaimsOf(k, V.Listed(cloud, {})).value
  {
    P.RoundTripIff(zone, id);
    var listed := V.Listed(cloud, {});
    var i := R.GetFindsListed(cloud, used, cache, now, id);
    var n :| 0 <= n < |listed| && listed[n] == i;
    assert ClaimsOf(k, listed).value[n] == ToNodeClaim(i);
  }

  /** The claim shows the instance: its labels, its provider id, its image, when it was created, and
      whether the VM is going away. */
  ghost predicate Shows(i: V.Instance, claim: NodeClaim) {
    && claim.labels.zone == i.zone && claim.labels.zoneId == i.zoneId && claim.labels.networkId == i.networkId
    && claim.labels.offering == i.offering && claim.labels.offeringId == i.offeringId
    && claim.labels.template == i.template && claim.labels.templateId == i.templateId
    && claim.labels.nodePool == (if "karpenter.sh/nodepool" in i.tags then Some(i.tags["karpenter.sh/nodepool"]) else None)
    && claim.hash == None && claim.providerId == "cloudstack://" + i.zone + "/" + i.id
    && claim.imageId == i.templateId && claim.created == i.created
    && (claim.deleting <==> i.state == "Destroyed" || i.state == "Expunging")
  }

  /** The lookup of the NodeClass that the tags name fails for another reason than absence. */
  ghost predicate ClassBroken(k: Kube, i: V.Instance) {
    "karpenter.k8s.cloudstack/nodeclass" in i.tags && i.tags["karpenter.k8s.cloudstack/nodeclass"] in k.brokenClasses
  }

  /** What Get answers by provider id: a failure for the empty id, and else, for the id behind the last
      slash, that there is no instance, that it cannot be read, that its NodeClass cannot be looked
      up, or the claim that shows it.  A missing NodeClass makes no difference. */
  lemma GetMeans(k: Kube, zone: string, id: string, cloud: V.Cloud, cache: Cache<V.Instance>, now: int, f: V.Faults)
    requires '/' !in id
    ensures Got(k, "", cloud, cache, now, f) == (NoSuchId, cache)
    ensures var (r, after) := Got(k, "cloudstack://" + zone + "/" + id, cloud, cache, now, f);
            var (instance, filled) := V.Got(cloud, cache, now, id, f);
            && after == filled
            && (instance == V.NotFound ==> r == NoInstance)
            && (instance == V.QueryFailed ==> r == NotRead)
            && (instance.Found? ==> if ClassBroken(k, instance.instance) then r == ClassNotRead
                                    else r.Claimed? && Shows(instance.instance, r.claim))
  {
    P.RoundTripIff(zone, id);
    assert "cloudstack://" + zone + "/" + id == P.Format(zone, id);
  }

  /** Delete does with the VM that the provider id names what Delete of the instance does, and reports its
      failure; the empty id is refused. */
  lemma DeleteMeans(claim: NodeClaim, zone: string, id: string, cloud: V.Cloud, cache: Cache<V.Instance>, now: int, f: V.Faults)
    requires '/' !in id
    ensures claim.providerId == "" ==> Deleted(claim, cloud, cache, now, f) == (BadProviderId, cloud, cache)
    ensures claim.providerId == "cloudstack://" + zone + "/" + id ==>
              var (r, after, rest) := V.Removed(cloud, cache, now, id, f);
              Deleted(claim, cloud, cache, now, f) == (if r == V.Deleted then Gone else Failed(r), after, rest)
  {
    P.RoundTripIff(zone, id);
    assert "cloudstack://" + zone + "/" + id == P.Format(zone, id);
  }

  /** List fails exactly if the NodeClass of some instance cannot be looked up; a missing one makes no
      difference.  Otherwise it gives, in order, the claim that shows each instance. */
  lemma ListMeans(k: Kube, instances: seq<V.Instance>)
    ensures ClaimsOf(k, instances).None? <==> exists i :: i in instances && ClassBroken(k, i)
    ensures ClaimsOf(k, instances).Some? ==>
              && |ClaimsOf(k, instances).value| == |instances|
              && forall n | 0 <= n < |instances| :: Shows(instances[n], ClaimsOf(k, instances).value[n])
  {
    forall i ensures ClassOf(k, i).Broken? <==> ClassBroken(k, i) {}
    if n :| 0 <= n < |instances| && ClassOf(k, instances[n]).Broken? {
      assert instances[n] in instances && ClassBroken(k, instances[n]);
    }
    if i :| i in instances && ClassBroken(k, i) {
      var n :| 0 <= n < |instances| && instances[n] == i;
      assert ClassOf(k, instances[n]).Broken?;
    }
  }

  // ----- drift over runs -----

  /** Two specs give the same input to the hash exactly when they differ in the order of terms only. */
  lemma SameInputIff(a: Spec, b: Spec)
    ensures Input(a) == Input(b) <==> Reordered(a, b)
  {}

  /** Drift is unknown exactly when a lookup that was needed failed for another reason than absence;
      an absent label, pool, reference or NodeClass is never drift. */
  lemma DriftUnknownIff(k: Kube, claim: NodeClaim, hash: HashInput -> string)
    ensures var pool := claim.labels.nodePool;
            && (DriftOf(k, claim, hash) == Unknown <==>
                  pool.Some? && (pool.value in k.brokenPools ||
                    (pool.value in k.pools && k.pools[pool.value].Some? && k.pools[pool.value].value in k.brokenClasses)))
            && (DriftOf(k, claim, hash) == Drifted ==>
                  && pool.Some? && pool.value in k.pools && k.pools[pool.value].Some?
                  && k.pools[pool.value].value in k.classes && !k.classes[k.pools[pool.value].value].deleted)
  {}

  /** A NodeClaim that was created, with the NodeClass, its spec at that time and the NodePool. */
  datatype Record = Record(claim: NodeClaim, className: string, spec: Spec, nodePool: Option<string>)

  datatype State = State(kube: Kube, records: map<nat, Record>)

  /** Everything in the store may change between two creations. */
  datatype Step =
    | CreateClaim(n: nat, claim: V.Claim, l: Listings, cloud: V.Cloud, cluster: string, course: V.Course)
    | Change(kube: Kube)

  ghost predicate KubeOk(k: Kube) {
    forall name | name in k.classes :: Admitted(k.classes[name].spec.tags)
  }

  ghost predicate Enabled(s: State, step: Step) {
    match step
    case CreateClaim(n, _, _, _, _, _) => n !in s.records
    case Change(kube) => KubeOk(kube)
  }

  ghost function Next(hash: HashInput -> string, s: State, step: Step): State {
    match step
    case CreateClaim(n, claim, l, cloud, cluster, course) =>
      var r := Created(s.kube, claim, l, hash, cloud, cluster, course).0;
      if r.Ready? then
        s.(records := s.records[n := Record(r.claim, claim.className, s.kube.classes[claim.className].spec, claim.nodePool)])
      else s
    case Change(kube) => s.(kube := kube)
  }

  ghost predicate Runs(hash: HashInput -> string, s: State, steps: seq<Step>)
    decreases |steps|, 0
  {
    steps != [] ==>
      Runs(hash, s, steps[..|steps|-1]) && Enabled(After(hash, s, steps[..|steps|-1]), steps[|steps|-1])
  }

  ghost function After(hash: HashInput -> string, s: State, steps: seq<Step>): State
    requires Runs(hash, s, steps)
    decreases |steps|, 1
  {
    if steps == [] then s else Next(hash, After(hash, s, steps[..|steps|-1]), steps[|steps|-1])
  }

  ghost predicate RecordsOk(hash: HashInput -> string, s: State) {
    KubeOk(s.kube) && forall n | n in s.records ::
      s.records[n].claim.hash == Some(Hash(hash, s.records[n].spec)) && s.records[n].claim.labels.nodePool == s.records[n].nodePool
  }

  lemma {:induction false} RecordsAlwaysOk(hash: HashInput -> string, k: Kube, steps: seq<Step>)
    requires KubeOk(k) && Runs(hash, State(k, map[]), steps)
    ensures RecordsOk(hash, After(hash, State(k, map[]), steps))
  {
    if steps != [] {
      RecordsAlwaysOk(hash, k, steps[..|steps|-1]);
      var s := After(hash, State(k, map[]), steps[..|steps|-1]);
      match steps[|steps|-1]
      case CreateClaim(n, claim, l, cloud, cluster, course) =>
        if Created(s.kube, claim, l, hash, cloud, cluster, course).0.Ready? {
          OwnTagsNameOwner(cluster, V.OwnerOf(OrderOf(claim, s.kube.classes[claim.className].spec, l, course)));
        }
      case Change(_) =>
    }
  }

  /** Over runs of creations and changes of the store: while the NodePool refers to the NodeClass the
      claim was created from, and both are there, the claim is reported as drifted exactly when the
      hash now differs from that of the spec it was created with.  Reordered selector terms alone
      never count as drift; with a hash that keeps different inputs apart, every other change does. */
  lemma DriftIff(hash: HashInput -> string, k: Kube, steps: seq<Step>, n: nat)
    requires KubeOk(k) && Runs(hash, State(k, map[]), steps)
    requires var s := After(hash, State(k, map[]), steps);
             && n in s.records && s.records[n].nodePool.Some?
             && PoolNamed(s.kube, s.records[n].nodePool.value) == Present(Some(s.records[n].className))
             && ClassNamed(s.kube, s.records[n].className).Present?
    ensures var s := After(hash, State(k, map[]), steps);
            var then_, now := s.records[n].spec, ClassNamed(s.kube, s.records[n].className).value.spec;
            var drift := DriftOf(s.kube, s.records[n].claim, hash);
            && (drift == Drifted <==> Hash(hash, then_) != Hash(hash, now))
            && drift != Unknown
            && (Reordered(then_, now) ==> drift == NotDrifted)
            && ((forall a, b :: hash(a) == hash(b) ==> a == b) ==> (drift == Drifted <==> !Reordered(then_, now)))
  {
    RecordsAlwaysOk(hash, k, steps);
  }

  /** The NodeClaims that Get and List build carry no hash, so they look drifted exactly where drift
      can be judged at all: where the pool of the VM leads to a NodeClass. */
  lemma ReadClaimsLookDriftedIff(k: Kube, i: V.Instance, hash: HashInput -> string)
    requires forall input :: hash(input) != ""
    ensures DriftOf(k, ToNodeClaim(i), hash) == Drifted <==> ClassOfPool(k, Tag(i.tags, V.NODE_POOL)).Present?
  {}

  /** So a new node is not drifted by the claim that Create returned, and is drifted by the claim that
      Get returns right after it, whenever its pool refers to the NodeClass it was created from. */
  lemma GetMakesItLookDrifted(k: Kube, claim: V.Claim, l: Listings, hash: HashInput -> string, cloud: V.Cloud, cluster: string,
                              course: V.Course, used: set<string>, cache: Cache<V.Instance>, now: int)
    requires forall input :: hash(input) != ""
    requires R.CloudOk(cloud, used) && course.id !in used && '/' !in course.id && !course.tagsRefused
    requires Lookup(cache, V.Key(course.id), now).None?
    requires Succeeds(k, claim, l, course)
    requires Admitted(k.classes[claim.className].spec.tags)
    requires claim.nodePool.Some? && PoolNamed(k, claim.nodePool.value) == Present(Some(claim.className))
    ensures Created(k, claim, l, hash, cloud, cluster, course).0.Ready?
    ensures var (r, after) := Created(k, claim, l, hash, cloud, cluster, course);
            var read := Got(k, r.claim.providerId, after, cache, now, V.Faults(false, false, false)).0;
            && DriftOf(k, r.claim, hash) == NotDrifted
            && read.Claimed? && DriftOf(k, read.claim, hash) == Drifted
  {
    CreateSucceedsIff(k, claim, l, hash, cloud, cluster, course);
    var i := ReadBack(k, claim, l, hash, cloud, cluster, course, used, cache, now);
    ReadClaimsLookDriftedIff(k, i, hash);
  }
}
