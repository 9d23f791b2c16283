/** The instance provider: virtual machines, their tags and the instance cache.  CloudStack is the
    class Api; what it may refuse is a parameter of each call. */
module InstanceProvider {
  import opened Lists
  import opened Tags
  import opened TtlCache
  import opened NodeClassApi
  import N = NetworkProvider
  import T = TemplateProvider

  // ----- CloudStack -----

  datatype Nic = Nic(networkId: string, ipAddress: string)

  datatype VM = VM(
    id: string, name: string, state: string, zone: string, zoneId: string, offering: string, offeringId: string,
    template: string, templateId: string, nics: seq<Nic>, created: int)

  /** The virtual machines in the order the API lists them, and the tags it holds. */
  datatype Cloud = Cloud(vms: seq<VM>, tags: map<string, TagMap>)

  function IdOf(): VM -> string { (v: VM) => v.id }
  function Is(id: string): VM -> bool { (v: VM) => v.id == id }
  function IsNot(id: string): VM -> bool { (v: VM) => v.id != id }

  predicate Exists(c: Cloud, id: string) { HasKey(c.vms, IdOf(), id) }

  function TagsOf(c: Cloud, id: string): TagMap { if id in c.tags then c.tags[id] else map[] }

  function Deployed(c: Cloud, vm: VM): Cloud { c.(vms := c.vms + [vm]) }

  function Tagged(c: Cloud, id: string, tags: TagMap): Cloud { c.(tags := c.tags[id := tags]) }

  function Destroyed(c: Cloud, id: string): Cloud { Cloud(Filter(c.vms, IsNot(id)), c.tags - {id}) }

  function InState(id: string, state: string): VM -> VM { (v: VM) => if v.id == id then v.(state := state) else v }

  function Changed(c: Cloud, id: string, state: string): Cloud { c.(vms := Map(c.vms, InState(id, state))) }

  class Api {
    var vms: seq<VM>
    var tags: map<string, TagMap>

    function Value(): Cloud
      reads this
    {
      Cloud(vms, tags)
    }

    constructor (c: Cloud)
      ensures Value() == c
    {
      vms, tags := c.vms, c.tags;
    }

    method Deploy(vm: VM)
      modifies this
      ensures Value() == Deployed(old(Value()), vm)
    {
      vms := vms + [vm];
    }

    method Query(id: string) returns (r: Option<VM>)
      ensures r == Find(vms, Is(id))
    {
      r := Find(vms, Is(id));
    }

    /** The cloud moves a VM to another state by itself. */
    method Change(id: string, state: string)
      modifies this
      ensures Value() == Changed(old(Value()), id, state)
    {
      vms := Map(vms, InState(id, state));
    }

    /** Destroying a VM that is not there is refused. */
    method Destroy(id: string, refused: bool) returns (ok: bool)
      modifies this
      ensures ok <==> !refused && Exists(old(Value()), id)
      ensures Value() == if ok then Destroyed(old(Value()), id) else old(Value())
    {
      ok := !refused && HasKey(vms, IdOf(), id);
      if ok {
        vms, tags := Filter(vms, IsNot(id)), tags - {id};
      }
    }

    method CreateTags(id: string, newTags: TagMap, refused: bool) returns (ok: bool)
      modifies this
      ensures ok <==> !refused
      ensures Value() == if ok then Tagged(old(Value()), id, newTags) else old(Value())
    {
      ok := !refused;
      if ok {
        tags := tags[id := newTags];
      }
    }
  }

  // ----- instances -----

  datatype Instance = Instance(
    id: string, name: string, state: string, zone: string, zoneId: string, offering: string, offeringId: string,
    template: string, templateId: string, networkId: string, ipAddress: string, created: int, tags: TagMap)

  function ToInstance(vm: VM, tags: TagMap): Instance {
    Instance(vm.id, vm.name, vm.state, vm.zone, vm.zoneId, vm.offering, vm.offeringId, vm.template, vm.templateId,
             if |vm.nics| > 0 then vm.nics[0].networkId else "", if |vm.nics| > 0 then vm.nics[0].ipAddress else "",
             vm.created, tags)
  }

  const MANAGED_BY := "karpenter.sh/managed-by"
  const CLUSTER := "kubernetes.io/cluster"
  const NODE_CLASS := "karpenter.k8s.cloudstack/nodeclass"
  const NODE_CLAIM := "karpenter.sh/nodeclaim"
  const NODE_POOL := "karpenter.sh/nodepool"

  /** Whose VM it is: the names buildTags takes from the NodeClass and the NodeClaim. */
  datatype Owner = Owner(nodeClass: string, userTags: TagMap, nodeClaim: string, nodePool: Option<string>)

  /** The tags of a new VM; the user's own come last and win. */
  function TagsFor(cluster: string, o: Owner): TagMap {
    OwnTags(cluster, o) + o.userTags
  }

  function OwnTags(cluster: string, o: Owner): TagMap {
    var tags := map[MANAGED_BY := "karpenter", CLUSTER + "/" + cluster := "owned", NODE_CLASS := o.nodeClass, NODE_CLAIM := o.nodeClaim];
    if o.nodePool.Some? then tags[NODE_POOL := o.nodePool.value] else tags
  }

  function Key(id: string): string { "instance-" + id }

  // ----- the operations as functions of the state -----

  /** One answer while waiting for a VM: what a poll shows, or why waiting ends. */
  datatype Poll = Shows(state: string) | Missing | QueryFails | TimedOut | Cancelled

  /** The cloud and whether the VM was seen in the target state.  Waiting ends with the list: its
      end stands for the timeout. */
  function Waited(c: Cloud, id: string, target: string, polls: seq<Poll>): (Cloud, bool)
    decreases |polls|
  {
    if polls == [] then (c, false)
    else
      match polls[0]
      case Shows(state) =>
        if state == target then (Changed(c, id, state), true)
        else Waited(Changed(c, id, state), id, target, polls[1..])
      case Missing => (Destroyed(c, id), false)
      case _ => (c, false)
  }

  /** The NodeClaim to be created: the NodeClass it refers to, its name and its NodePool, if any. */
  datatype Claim = Claim(className: string, name: string, nodePool: Option<string>)

  /** What the cloud answers in the course of a Create: zones and offerings by name, the VM it would
      deploy, how the polls go, and what it refuses. */
  datatype Course = Course(
    zoneIds: map<string, string>, offeringIds: map<string, string>, id: string, ipAddress: string, at: int,
    polls: seq<Poll>, deployRefused: bool, tagsRefused: bool)

  /** The inputs of Create besides the state: the claim, the spec of the NodeClass, the instance types,
      the listings of its zone, if they can be had, and what the cloud answers. */
  datatype Order = Order(
    claim: Claim, spec: Spec, instanceTypes: seq<string>, networks: Option<seq<N.Network>>,
    templates: Option<seq<T.Template>>, course: Course)

  function OwnerOf(o: Order): Owner { Owner(o.claim.className, o.spec.tags, o.claim.name, o.claim.nodePool) }

  /** Create gets as far as resolving networks, and templates. */
  predicate AsksNetworks(o: Order) { o.instanceTypes != [] && o.spec.zone in o.course.zoneIds }

  predicate AsksTemplates(o: Order) { AsksNetworks(o) && N.Answered(o.networks, o.spec.networkTerms).Ok? }

  /** Nothing is deployed: an answer is missing, or the cloud refuses. */
  predicate Hopeless(o: Order) {
    || !AsksTemplates(o) || T.Answered(o.templates, o.spec.templateTerms).Err?
    || o.instanceTypes[0] !in o.course.offeringIds || o.course.deployRefused
  }

  /** The VM asked for: the first instance type on the first network from the first template. */
  function Ordered(o: Order): VM
    requires !Hopeless(o)
  {
    var network := N.Answered(o.networks, o.spec.networkTerms).value[0];
    var template := T.Answered(o.templates, o.spec.templateTerms).value[0];
    VM(o.course.id, "karpenter-" + o.claim.name, "Starting", o.spec.zone, o.course.zoneIds[o.spec.zone], o.instanceTypes[0],
       o.course.offeringIds[o.instanceTypes[0]], template.name, template.id, [Nic(network.id, o.course.ipAddress)], o.course.at)
  }

  function Created(c: Cloud, cluster: string, o: Order): (Cloud, Option<Instance>) {
    if Hopeless(o) then (c, None) else Launched(c, cluster, Ordered(o), OwnerOf(o), o.course)
  }

  /** The VM is deployed, awaited and tagged; a refused tagging does not fail the call. */
  function Launched(c: Cloud, cluster: string, vm: VM, owner: Owner, course: Course): (Cloud, Option<Instance>) {
    var (waited, running) := Waited(Deployed(c, vm), vm.id, "Running", course.polls);
    if !running then (waited, None)
    else
      (if course.tagsRefused then waited else Tagged(waited, vm.id, TagsFor(cluster, owner)),
       Some(ToInstance(vm.(state := "Running"), TagsFor(cluster, owner))))
  }

  /** Where Create gets its listings from: what the API holds, at the time of the call. */
  datatype Sources = Sources(networks: N.Api, templates: T.Api, now: int)

  function NetworksRead(c: Cache<seq<N.Network>>, zone: string, from: Sources): (Option<seq<N.Network>>, Cache<seq<N.Network>>) {
    ReadThrough(c, N.Provider.CacheKey(zone), from.now, N.Fetched(from.networks, zone))
  }

  function TemplatesRead(c: Cache<seq<T.Template>>, zone: string, from: Sources): (Option<seq<T.Template>>, Cache<seq<T.Template>>) {
    ReadThrough(c, T.Provider.CacheKey(zone), from.now, T.Fetched(from.templates, zone))
  }

  function OrderFrom(claim: Claim, spec: Spec, instanceTypes: seq<string>, course: Course, from: Sources,
                     nets: Cache<seq<N.Network>>, tpls: Cache<seq<T.Template>>): Order {
    Order(claim, spec, instanceTypes, NetworksRead(nets, spec.zone, from).0, TemplatesRead(tpls, spec.zone, from).0, course)
  }

  /** The caches of the resolvers after a Create: only what it asked for is read. */
  function NetworkCacheAfter(o: Order, nets: Cache<seq<N.Network>>, from: Sources): Cache<seq<N.Network>> {
    if AsksNetworks(o) then NetworksRead(nets, o.spec.zone, from).1 else nets
  }

  function TemplateCacheAfter(o: Order, tpls: Cache<seq<T.Template>>, from: Sources): Cache<seq<T.Template>> {
    if AsksTemplates(o) then TemplatesRead(tpls, o.spec.zone, from).1 else tpls
  }

  datatype Faults = Faults(query: bool, readTags: bool, destroy: bool)

  datatype GetReply = Found(instance: Instance) | NotFound | QueryFailed

  function Got(c: Cloud, cache: Cache<Instance>, now: int, id: string, f: Faults): (GetReply, Cache<Instance>) {
    var hit := Lookup(cache, Key(id), now);
    if hit.Some? then (Found(hit.value), cache)
    else if f.query then (QueryFailed, cache)
    else
      var vm := Find(c.vms, Is(id));
      if vm.None? then (NotFound, cache)
      else
        var instance := ToInstance(vm.value, if f.readTags then map[] else TagsOf(c, vm.value.id));
        (Found(instance), cache[Key(id) := Entry(instance, now)])
  }

  datatype DeleteReply = Deleted | NotChecked | NotDestroyed

  function Removed(c: Cloud, cache: Cache<Instance>, now: int, id: string, f: Faults): (DeleteReply, Cloud, Cache<Instance>) {
    var (got, filled) := Got(c, cache, now, id, f);
    if got.NotFound? then (Deleted, c, filled)
    else if got.QueryFailed? then (NotChecked, c, filled)
    else if f.destroy || !Exists(c, id) then (NotDestroyed, c, filled)
    else (Deleted, Destroyed(c, id), filled - {Key(id)})
  }

  /** A VM that List shows, when the tag reads in `unreadable` fail. */
  function IsListed(c: Cloud, unreadable: set<string>): VM -> bool {
    (v: VM) => v.id !in unreadable && MANAGED_BY in TagsOf(c, v.id)
  }

  function AsInstance(c: Cloud): VM -> Instance { (v: VM) => ToInstance(v, TagsOf(c, v.id)) }

  function Listed(c: Cloud, unreadable: set<string>): seq<Instance> {
    Map(Filter(c.vms, IsListed(c, unreadable)), AsInstance(c))
  }

  // ----- the provider -----

  class Provider {
    const api: Api
    const networks: N.Provider
    const templates: T.Provider
    const cluster: string
    var cache: Cache<Instance>

    constructor (api: Api, networks: N.Provider, templates: T.Provider, cluster: string)
      ensures this.api == api && this.networks == networks && this.templates == templates && this.cluster == cluster
      ensures cache == map[]
    {
      this.api, this.networks, this.templates, this.cluster, cache := api, networks, templates, cluster, map[];
    }

    /** buildTags. */
    method BuildTags(o: Owner) returns (tags: TagMap)
      ensures tags == TagsFor(cluster, o)
    {
      tags := map[MANAGED_BY := "karpenter", CLUSTER + "/" + cluster := "owned", NODE_CLASS := o.nodeClass, NODE_CLAIM := o.nodeClaim];
      if o.nodePool.Some? {
        tags := tags[NODE_POOL := o.nodePool.value];
      }
      tags := AddTags(tags, o.userTags);
    }

    /** The user's tags are added in any order. */
    method AddTags(own: TagMap, user: TagMap) returns (tags: TagMap)
      ensures tags == own + user
    {
      tags := own;
      var pending := user.Keys;
      while pending != {}
        invariant pending <= user.Keys
        invariant tags.Keys == own.Keys + (user.Keys - pending)
        invariant forall k | k in user && k !in pending :: tags[k] == user[k]
        invariant forall k | k in own && (k !in user || k in pending) :: tags[k] == own[k]
        decreases |pending|
      {
        var k :| k in pending;
        tags := tags[k := user[k]];
        pending := pending - {k};
      }
    }

    method WaitForVMState(id: string, target: string, polls: seq<Poll>) returns (ok: bool)
      modifies api
      ensures (api.Value(), ok) == Waited(old(api.Value()), id, target, polls)
    {
      for i := 0 to |polls|
        invariant Waited(old(api.Value()), id, target, polls) == Waited(api.Value(), id, target, polls[i..])
      {
        match polls[i]
        case Shows(state) =>
          api.Change(id, state);
          if state == target {
            return true;
          }
        case Missing =>
          api.vms, api.tags := Filter(api.vms, IsNot(id)), api.tags - {id};
          return false;
        case _ =>
          return false;
      }
      return false;
    }

    /** Create, with the resolvers reading through their own caches. */
    method Create(claim: Claim, spec: Spec, instanceTypes: seq<string>, course: Course, from: Sources) returns (r: Option<Instance>)
      requires templates.Valid()
      modifies api, networks, templates
      ensures templates.Valid()
      ensures var o := OrderFrom(claim, spec, instanceTypes, course, from, old(networks.cache), old(templates.Contents()));
              && (api.Value(), r) == Created(old(api.Value()), cluster, o)
              && networks.cache == NetworkCacheAfter(o, old(networks.cache), from)
              && templates.Contents() == TemplateCacheAfter(o, old(templates.Contents()), from)
    {
      var vm := Prepare(claim, spec, instanceTypes, course, from);
      if vm.None? {
        return None;
      }
      r := LaunchApart(vm.value, Owner(claim.className, spec.tags, claim.name, claim.nodePool), course);
    }

    /** The part of Create up to the deployment: the VM to ask for, if there is any hope. */
    method Prepare(claim: Claim, spec: Spec, instanceTypes: seq<string>, course: Course, from: Sources) returns (r: Option<VM>)
      requires templates.Valid()
      modifies networks, templates
      ensures templates.Valid()
      ensures var o := OrderFrom(claim, spec, instanceTypes, course, from, old(networks.cache), old(templates.Contents()));
              && r == (if Hopeless(o) then None else Some(Ordered(o)))
              && networks.cache == NetworkCacheAfter(o, old(networks.cache), from)
              && templates.Contents() == TemplateCacheAfter(o, old(templates.Contents()), from)
      ensures api.Value() == old(api.Value())
    {
      if |instanceTypes| == 0 || spec.zone !in course.zoneIds {
        return None;
      }
      var ns := NetworksFor(spec, from);
      if ns.Err? {
        return None;
      }
      var template := TemplateFor(spec, from);
      if template.None? || instanceTypes[0] !in course.offeringIds || course.deployRefused {
        return None;
      }
      return Some(VM(course.id, "karpenter-" + claim.name, "Starting", spec.zone, course.zoneIds[spec.zone], instanceTypes[0],
                     course.offeringIds[instanceTypes[0]], template.value.name, template.value.id,
                     [Nic(ns.value[0].id, course.ipAddress)], course.at));
    }

    /** The networks that resolve; the template provider is left alone. */
    method NetworksFor(spec: Spec, from: Sources) returns (r: N.Result<seq<N.Network>>)
      requires templates.Valid()
      modifies networks
      ensures templates.Valid() && templates.Contents() == old(templates.Contents())
      ensures var (listed, after) := NetworksRead(old(networks.cache), spec.zone, from);
              r == N.Answered(listed, spec.networkTerms) && networks.cache == after
    {
      r := networks.ResolveNetworks(from.networks, spec.networkTerms, spec.zone, from.now);
    }

    /** The first template that resolves. */
    method TemplateFor(spec: Spec, from: Sources) returns (r: Option<T.Template>)
      requires templates.Valid()
      modifies templates
      ensures templates.Valid()
      ensures var (listed, after) := TemplatesRead(old(templates.Contents()), spec.zone, from);
              && templates.Contents() == after
              && r == match T.Answered(listed, spec.templateTerms)
                      case Err(_) => None
                      case Ok(ts) => Some(ts[0])
    {
      var ts := templates.ResolveTemplates(from.templates, spec.templateTerms, spec.zone, from.now);
      if ts.Err? {
        return None;
      }
      assert ts.value.store[0] == ts.value.Value()[0];
      return Some(ts.value.store[0]);
    }

    /** Launching leaves the resolvers alone. */
    method LaunchApart(vm: VM, owner: Owner, course: Course) returns (r: Option<Instance>)
      requires templates.Valid()
      modifies api
      ensures templates.Valid() && templates.Contents() == old(templates.Contents()) && networks.cache == old(networks.cache)
      ensures (api.Value(), r) == Launched(old(api.Value()), cluster, vm, owner, course)
    {
      r := Launch(vm, owner, course);
    }

    /** The part of Create from the deployment on. */
    method Launch(vm: VM, owner: Owner, course: Course) returns (r: Option<Instance>)
      modifies api
      ensures (api.Value(), r) == Launched(old(api.Value()), cluster, vm, owner, course)
    {
      api.Deploy(vm);
      var running := WaitForVMState(vm.id, "Running", course.polls);
      if !running {
        return None;
      }
      var tags := BuildTags(owner);
      var _ := api.CreateTags(vm.id, tags, course.tagsRefused);
      return Some(ToInstance(vm.(state := "Running"), tags));
    }

    method Get(id: string, now: int, f: Faults) returns (r: GetReply)
      modifies this
      ensures (r, cache) == Got(api.Value(), old(cache), now, id, f)
    {
      var hit := Lookup(cache, Key(id), now);
      if hit.Some? {
        return Found(hit.value);
      }
      if f.query {
        return QueryFailed;
      }
      var vm := api.Query(id);
      if vm.None? {
        return NotFound;
      }
      var instance := ToInstance(vm.value, if f.readTags then map[] else TagsOf(api.Value(), vm.value.id));
      cache := cache[Key(id) := Entry(instance, now)];
      return Found(instance);
    }

    method Delete(id: string, now: int, f: Faults) returns (r: DeleteReply)
      modifies this, api
      ensures (r, api.Value(), cache) == Removed(old(api.Value()), old(cache), now, id, f)
    {
      var got := Get(id, now, f);
      if got.NotFound? {
        return Deleted;
      }
      if got.QueryFailed? {
        return NotChecked;
      }
      var ok := api.Destroy(id, f.destroy);
      if !ok {
        return NotDestroyed;
      }
      cache := cache - {Key(id)};
      return Deleted;
    }

    method List(fails: bool, unreadable: set<string>) returns (r: Option<seq<Instance>>)
      ensures r == if fails then None else Some(Listed(api.Value(), unreadable))
    {
      if fails {
        return None;
      }
      var instances: seq<Instance> := [];
      var c := api.Value();
      for i := 0 to |c.vms|
        invariant instances == Map(Filter(c.vms[..i], IsListed(c, unreadable)), AsInstance(c))
      {
        var vm := c.vms[i];
        Snoc(c.vms, i);
        FilterSnoc(c.vms[..i], vm, IsListed(c, unreadable));
        if vm.id in unreadable {
          continue;
        }
        var tags := TagsOf(c, vm.id);
        if MANAGED_BY in tags {
          instances := instances + [ToInstance(vm, tags)];
        }
      }
      assert c.vms[..|c.vms|] == c.vms;
      return Some(instances);
    }
  }
}
