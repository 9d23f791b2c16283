/** Sequential runs of the instance provider, in a cloud that other tenants use as well: whose VMs
    List shows, what a failed Create leaves behind and what a Delete achieves.  VM ids are never
    reused, and nobody else puts tags on the provider's VMs. */
module InstanceRuns {
  import opened Lists
  import opened Tags
  import opened TtlCache
  import opened Resolution
  import opened NodeClassApi
  import opened InstanceProvider
  import N = NetworkProvider
  import T = TemplateProvider
  import I = InstanceTypeProvider

  datatype State = State(cloud: Cloud, cache: Cache<Instance>, now: int, used: set<string>)

  datatype Step =
    | CreateVM(order: Order)
    | GetVM(id: string, faults: Faults)
    | DeleteVM(id: string, faults: Faults)
    | Tick(delay: nat)
    | Evict(key: string)
    | Foreign(vm: VM, tags: TagMap)
    | Lost(id: string)

  ghost predicate Enabled(s: State, step: Step) {
    match step
    case CreateVM(order) => order.course.id !in s.used
    case Foreign(vm, _) => vm.id !in s.used
    case Evict(key) => key in s.cache && !Live(s.cache[key], s.now)
    case _ => true
  }

  ghost function Next(cluster: string, s: State, step: Step): State {
    match step
    case CreateVM(order) => s.(cloud := Created(s.cloud, cluster, order).0, used := s.used + {order.course.id})
    case GetVM(id, f) => s.(cache := Got(s.cloud, s.cache, s.now, id, f).1)
    case DeleteVM(id, f) =>
      var (_, cloud, cache) := Removed(s.cloud, s.cache, s.now, id, f);
      s.(cloud := cloud, cache := cache)
    case Tick(delay) => s.(now := s.now + delay)
    case Evict(key) => s.(cache := s.cache - {key})
    case Foreign(vm, tags) => s.(cloud := Tagged(Deployed(s.cloud, vm), vm.id, tags), used := s.used + {vm.id})
    case Lost(id) => s.(cloud := Destroyed(s.cloud, id))
  }

  ghost function Start(now: int): State {
    State(Cloud([], map[]), map[], now, {})
  }

  ghost predicate Runs(cluster: string, s: State, steps: seq<Step>)
    decreases |steps|, 0
  {
    steps != [] ==>
      Runs(cluster, s, steps[..|steps|-1]) && Enabled(After(cluster, s, steps[..|steps|-1]), steps[|steps|-1])
  }

  ghost function After(cluster: string, s: State, steps: seq<Step>): State
    requires Runs(cluster, s, steps)
    decreases |steps|, 1
  {
    if steps == [] then s else Next(cluster, After(cluster, s, steps[..|steps|-1]), steps[|steps|-1])
  }

  // ----- the cloud -----

  /** VM ids are unique and used up, and only existing VMs have tags. */
  ghost predicate CloudOk(c: Cloud, used: set<string>) {
    && UniqueBy(c.vms, IdOf())
    && (forall i | 0 <= i < |c.vms| :: c.vms[i].id in used)
    && (forall id | id in c.tags :: Exists(c, id))
  }

  /** Nothing but the VM `id` differs. */
  ghost predicate OnlyAbout(c: Cloud, c': Cloud, id: string) {
    && (forall x | x != id :: Exists(c', x) <==> Exists(c, x))
    && (forall x | x != id :: TagsOf(c', x) == TagsOf(c, x))
    && (forall v: VM | v.id != id :: v in c'.vms <==> v in c.vms)
  }

  lemma OnlyAboutTwice(c: Cloud, c': Cloud, c'': Cloud, id: string)
    requires OnlyAbout(c, c', id) && OnlyAbout(c', c'', id)
    ensures OnlyAbout(c, c'', id)
  {}

  lemma TaggedOk(c: Cloud, id: string, tags: TagMap, used: set<string>)
    requires CloudOk(c, used) && Exists(c, id)
    ensures CloudOk(Tagged(c, id, tags), used) && OnlyAbout(c, Tagged(c, id, tags), id) && Exists(Tagged(c, id, tags), id)
  {
    assert Tagged(c, id, tags).vms == c.vms;
  }

  lemma DeployedOk(c: Cloud, vm: VM, used: set<string>)
    requires CloudOk(c, used) && vm.id !in used
    ensures CloudOk(Deployed(c, vm), used + {vm.id}) && OnlyAbout(c, Deployed(c, vm), vm.id)
    ensures Exists(Deployed(c, vm), vm.id) && !Exists(c, vm.id) && TagsOf(Deployed(c, vm), vm.id) == map[]
  {
    var c' := Deployed(c, vm);
    assert c'.vms[|c.vms|] == vm;
    forall x ensures Exists(c', x) <==> Exists(c, x) || x == vm.id {
      if Exists(c, x) {
        var i :| 0 <= i < |c.vms| && IdOf()(c.vms[i]) == x;
        assert IdOf()(c'.vms[i]) == x;
      }
    }
  }

  lemma ChangedOk(c: Cloud, id: string, state: string, used: set<string>)
    requires CloudOk(c, used)
    ensures CloudOk(Changed(c, id, state), used)
    ensures forall x :: Exists(Changed(c, id, state), x) <==> Exists(c, x)
    ensures OnlyAbout(c, Changed(c, id, state), id)
  {
    var c' := Changed(c, id, state);
    forall v: VM | v.id != id ensures v in c'.vms <==> v in c.vms {
      if v in c.vms {
        var i :| 0 <= i < |c.vms| && c.vms[i] == v;
        assert c'.vms[i] == v;
      }
    }
    assert forall i | 0 <= i < |c.vms| :: IdOf()(c'.vms[i]) == IdOf()(c.vms[i]);
    forall x ensures Exists(c', x) <==> Exists(c, x) {
      if Exists(c, x) {
        var i :| 0 <= i < |c.vms| && IdOf()(c.vms[i]) == x;
        assert IdOf()(c'.vms[i]) == x;
      }
    }
  }

  lemma {:induction false} WithoutOk(vms: seq<VM>, id: string)
    requires UniqueBy(vms, IdOf())
    ensures UniqueBy(Filter(vms, IsNot(id)), IdOf())
    ensures forall x :: HasKey(Filter(vms, IsNot(id)), IdOf(), x) <==> HasKey(vms, IdOf(), x) && x != id
  {
    var f := Filter(vms, IsNot(id));
    forall x ensures HasKey(f, IdOf(), x) <==> HasKey(vms, IdOf(), x) && x != id {
      if HasKey(f, IdOf(), x) {
        var i :| 0 <= i < |f| && IdOf()(f[i]) == x;
        FilterMembers(vms, IsNot(id), f[i]);
      }
      if HasKey(vms, IdOf(), x) && x != id {
        var i :| 0 <= i < |vms| && IdOf()(vms[i]) == x;
        FilterMembers(vms, IsNot(id), vms[i]);
      }
    }
    if vms != [] {
      var before, v := vms[..|vms|-1], vms[|vms|-1];
      WithoutOk(before, id);
      assert vms == before + [v];
      FilterSnoc(before, v, IsNot(id));
      assert !HasKey(before, IdOf(), v.id) by {
        assert forall i | 0 <= i < |before| :: before[i] == vms[i];
      }
    }
  }

  lemma DestroyedOk(c: Cloud, id: string, used: set<string>)
    requires CloudOk(c, used)
    ensures CloudOk(Destroyed(c, id), used) && OnlyAbout(c, Destroyed(c, id), id) && !Exists(Destroyed(c, id), id)
  {
    WithoutOk(c.vms, id);
    forall v: VM | v.id != id ensures v in Filter(c.vms, IsNot(id)) <==> v in c.vms {
      FilterMembers(c.vms, IsNot(id), v);
    }
    forall i | 0 <= i < |Filter(c.vms, IsNot(id))| ensures Filter(c.vms, IsNot(id))[i].id in used {
      FilterMembers(c.vms, IsNot(id), Filter(c.vms, IsNot(id))[i]);
    }
  }

  /** Waiting touches nothing but the VM waited for, whose tags it leaves alone while it exists. */
  lemma {:induction false} WaitedOk(c: Cloud, id: string, target: string, polls: seq<Poll>, used: set<string>)
    requires CloudOk(c, used)
    ensures var (c', ok) := Waited(c, id, target, polls);
            && CloudOk(c', used) && OnlyAbout(c, c', id)
            && (ok ==> (Exists(c', id) <==> Exists(c, id)))
            && (Exists(c', id) ==> Exists(c, id) && TagsOf(c', id) == TagsOf(c, id))
    decreases |polls|
  {
    if polls != [] {
      match polls[0]
      case Shows(state) =>
        ChangedOk(c, id, state, used);
        if state != target {
          WaitedOk(Changed(c, id, state), id, target, polls[1..], used);
        }
      case Missing => DestroyedOk(c, id, used);
      case _ =>
    }
  }

  /** waitForVMState succeeds exactly when a poll shows the target state and every poll before it
      shows another one. */
  lemma {:induction false} WaitedIff(c: Cloud, id: string, target: string, polls: seq<Poll>)
    ensures Waited(c, id, target, polls).1 <==>
            exists i | 0 <= i < |polls| :: polls[i] == Shows(target) && forall j | 0 <= j < i :: polls[j].Shows?
    decreases |polls|
  {
    if polls != [] && polls[0].Shows? && polls[0].state != target {
      var rest := polls[1..];
      WaitedIff(Changed(c, id, polls[0].state), id, target, rest);
      if Waited(c, id, target, polls).1 {
        var i :| 0 <= i < |rest| && rest[i] == Shows(target) && forall j | 0 <= j < i :: rest[j].Shows?;
        assert polls[i + 1] == Shows(target) && forall j | 0 < j < i + 1 :: polls[j] == rest[j - 1];
      }
      if i :| 0 <= i < |polls| && polls[i] == Shows(target) && forall j | 0 <= j < i :: polls[j].Shows? {
        assert rest[i - 1] == Shows(target) && forall j | 0 <= j < i - 1 :: rest[j] == polls[j + 1];
      }
    }
  }

  // ----- when Create succeeds, and what it leaves -----

  /** Some poll shows the VM running, and every poll before it shows it in another state. */
  ghost predicate ComesToRun(polls: seq<Poll>) {
    exists i | 0 <= i < |polls| :: polls[i] == Shows("Running") && forall j | 0 <= j < i :: polls[j].Shows?
  }

  /** There is an instance type, the zone is known, networks and templates resolve, the cloud knows the
      offering and accepts the deployment, and the VM comes to run. */
  ghost predicate Succeeds(o: Order) {
    && o.instanceTypes != [] && o.spec.zone in o.course.zoneIds
    && N.Answered(o.networks, o.spec.networkTerms).Ok? && T.Answered(o.templates, o.spec.templateTerms).Ok?
    && o.instanceTypes[0] in o.course.offeringIds && !o.course.deployRefused
    && ComesToRun(o.course.polls)
  }

  /** Create succeeds exactly then: the cloud as it is, and the tagging, have no part in it. */
  lemma CreateSucceedsIff(c: Cloud, cluster: string, o: Order)
    ensures Created(c, cluster, o).1.Some? <==> Succeeds(o)
  {
    if !Hopeless(o) {
      WaitedIff(Deployed(c, Ordered(o)), o.course.id, "Running", o.course.polls);
    }
  }

  /** Create is about one new VM.  If it fails, that VM, if it is there at all, has no tags; if it
      succeeds, the VM is there and has the owner's tags unless tagging was refused. */
  lemma CreatedFacts(c: Cloud, cluster: string, o: Order, used: set<string>)
    requires CloudOk(c, used) && o.course.id !in used
    ensures var (c', r) := Created(c, cluster, o);
            && CloudOk(c', used + {o.course.id}) && OnlyAbout(c, c', o.course.id)
            && (r.None? ==> TagsOf(c', o.course.id) == map[])
            && (r.Some? ==>
                  && r.value.id == o.course.id && Exists(c', o.course.id)
                  && r.value.tags == TagsFor(cluster, OwnerOf(o))
                  && TagsOf(c', o.course.id) == if o.course.tagsRefused then map[] else TagsFor(cluster, OwnerOf(o)))
  {
    if Hopeless(o) {
      assert !Exists(c, o.course.id);
    } else {
      var deployed := Deployed(c, Ordered(o));
      var waited := Waited(deployed, o.course.id, "Running", o.course.polls).0;
      DeployedOk(c, Ordered(o), used);
      WaitedOk(deployed, o.course.id, "Running", o.course.polls, used + {o.course.id});
      OnlyAboutTwice(c, deployed, waited, o.course.id);
      if Created(c, cluster, o).1.Some? && !o.course.tagsRefused {
        TaggedOk(waited, o.course.id, TagsFor(cluster, OwnerOf(o)), used + {o.course.id});
        OnlyAboutTwice(c, waited, Tagged(waited, o.course.id, TagsFor(cluster, OwnerOf(o))), o.course.id);
      }
    }
  }

  /** The VM runs on the first of the networks and from the first of the templates that the terms of
      the spec resolve to in the listings, read declaratively, with the first instance type, in the
      zone of the spec. */
  lemma CreatedFromFirstChoices(c: Cloud, cluster: string, o: Order) returns (networks: seq<N.Network>, templates: seq<T.Template>)
    requires Succeeds(o)
    ensures Created(c, cluster, o).1.Some?
    ensures o.networks.Some? && o.templates.Some? && o.instanceTypes != [] && networks != [] && templates != []
    ensures KeepsFirstUsable(FlatMap(o.spec.networkTerms, N.Selector(o.networks.value)), N.ById(), N.Usable(), networks)
    ensures KeepsFirstUsable(FlatMap(o.spec.templateTerms, T.Selector(o.templates.value)), T.ById(), T.Usable(), templates)
    ensures var i := Created(c, cluster, o).1.value;
            && i.networkId == networks[0].id && i.templateId == templates[0].id && i.offering == o.instanceTypes[0]
            && o.spec.zone in o.course.zoneIds && i.zoneId == o.course.zoneIds[o.spec.zone] && i.zone == o.spec.zone
            && i.state == "Running" && i.id == o.course.id && i.name == "karpenter-" + o.claim.name
            && i.template == templates[0].name && i.ipAddress == o.course.ipAddress && i.created == o.course.at
            && o.instanceTypes[0] in o.course.offeringIds && i.offeringId == o.course.offeringIds[o.instanceTypes[0]]
  {
    CreateSucceedsIff(c, cluster, o);
    networks := N.Resolve(o.networks.value, o.spec.networkTerms);
    templates := T.Resolve(o.templates.value, o.spec.templateTerms);
    N.ResolveIff(o.networks.value, o.spec.networkTerms, networks);
    T.ResolveIff(o.templates.value, o.spec.templateTerms, templates);
  }

  // ----- the tags -----

  /** The cluster tag is none of the tags that name the owner. */
  lemma ClusterTagIsApart(cluster: string)
    ensures CLUSTER + "/" + cluster !in {MANAGED_BY, NODE_CLASS, NODE_CLAIM, NODE_POOL}
  {
    assert (CLUSTER + "/" + cluster)[1] == 'u';
    assert MANAGED_BY[1] == 'a' && NODE_CLASS[1] == 'a' && NODE_CLAIM[1] == 'a' && NODE_POOL[1] == 'a';
  }

  lemma KeysApart()
    ensures NODE_CLASS != NODE_CLAIM && NODE_CLASS != NODE_POOL && NODE_CLASS != MANAGED_BY
    ensures NODE_CLAIM != NODE_POOL && NODE_CLAIM != MANAGED_BY && NODE_POOL != MANAGED_BY
  {
    assert |NODE_CLASS| == 34 && |NODE_CLAIM| == 22 && |NODE_POOL| == 21 && |MANAGED_BY| == 23;
  }

  /** What a new VM's tags say under a key: what the user has set, or else one of the provider's own
      five, of which that of the NodePool is there only if the claim has one. */
  ghost function TagOf(cluster: string, o: Order, k: string): Option<string> {
    if k in o.spec.tags then Some(o.spec.tags[k])
    else if k == "karpenter.sh/managed-by" then Some("karpenter")
    else if k == "karpenter.k8s.cloudstack/nodeclass" then Some(o.claim.className)
    else if k == "karpenter.sh/nodeclaim" then Some(o.claim.name)
    else if k == "karpenter.sh/nodepool" then o.claim.nodePool
    else if k == "kubernetes.io/cluster/" + cluster then Some("owned")
    else None
  }

  lemma TagsMean(cluster: string, o: Order, k: string)
    ensures k in TagsFor(cluster, OwnerOf(o)) <==> TagOf(cluster, o, k).Some?
    ensures k in TagsFor(cluster, OwnerOf(o)) ==> TagsFor(cluster, OwnerOf(o))[k] == TagOf(cluster, o, k).value
  {
    ClusterTagIsApart(cluster);
    KeysApart();
    assert CLUSTER + "/" == "kubernetes.io/cluster/";
  }

  /** The tags that the reply of Create shows, and that the cloud holds unless it refused them, are
      exactly those. */
  lemma CreatedTagsMean(c: Cloud, cluster: string, o: Order, used: set<string>, k: string)
    requires CloudOk(c, used) && o.course.id !in used && Succeeds(o)
    ensures var (c', r) := Created(c, cluster, o);
            && r.Some? && (k in r.value.tags <==> TagOf(cluster, o, k).Some?)
            && (k in r.value.tags ==> r.value.tags[k] == TagOf(cluster, o, k).value)
            && TagsOf(c', o.course.id) == if o.course.tagsRefused then map[] else r.value.tags
  {
    CreateSucceedsIff(c, cluster, o);
    CreatedFacts(c, cluster, o, used);
    TagsMean(cluster, o, k);
  }

  /** The order with terms and instance types added at the end. */
  function WithTerms(o: Order, networkTerms: seq<N.Term>, offeringTerms: seq<I.Term>, templateTerms: seq<T.Term>,
                     instanceTypes: seq<string>): Order {
    o.(spec := SpecWithTerms(o.spec, networkTerms, offeringTerms, templateTerms), instanceTypes := o.instanceTypes + instanceTypes)
  }

  function SpecWithTerms(spec: Spec, networkTerms: seq<N.Term>, offeringTerms: seq<I.Term>, templateTerms: seq<T.Term>): Spec {
    spec.(networkTerms := spec.networkTerms + networkTerms, offeringTerms := spec.offeringTerms + offeringTerms,
          templateTerms := spec.templateTerms + templateTerms)
  }

  lemma WithTermsChoosesAlike(o: Order, networkTerms: seq<N.Term>, offeringTerms: seq<I.Term>, templateTerms: seq<T.Term>,
                              instanceTypes: seq<string>)
    requires o.instanceTypes != []
    requires N.Answered(o.networks, o.spec.networkTerms).Ok? && T.Answered(o.templates, o.spec.templateTerms).Ok?
    ensures var o' := WithTerms(o, networkTerms, offeringTerms, templateTerms, instanceTypes);
            Hopeless(o') == Hopeless(o) && (!Hopeless(o) ==> Ordered(o') == Ordered(o))
  {
    N.AppendKeepsHead(o.networks, o.spec.networkTerms, networkTerms);
    T.AppendKeepsHead(o.templates, o.spec.templateTerms, templateTerms);
  }

  /** Where every list already resolves to something, terms and instance types added at the end make
      no difference to Create, whether it succeeds or not: the same VM or the same failure. */
  lemma AppendedTermsAreIgnored(c: Cloud, cluster: string, o: Order, networkTerms: seq<N.Term>, offeringTerms: seq<I.Term>,
                                templateTerms: seq<T.Term>, instanceTypes: seq<string>)
    requires o.instanceTypes != []
    requires N.Answered(o.networks, o.spec.networkTerms).Ok? && T.Answered(o.templates, o.spec.templateTerms).Ok?
    ensures Created(c, cluster, WithTerms(o, networkTerms, offeringTerms, templateTerms, instanceTypes)) == Created(c, cluster, o)
  {
    var o' := WithTerms(o, networkTerms, offeringTerms, templateTerms, instanceTypes);
    WithTermsChoosesAlike(o, networkTerms, offeringTerms, templateTerms, instanceTypes);
    assert OwnerOf(o') == OwnerOf(o) && o'.course == o.course;
  }

  lemma {:induction false} FindChanged(vms: seq<VM>, id: string, state: string)
    ensures Find(Map(vms, InState(id, state)), Is(id)) ==
            if Find(vms, Is(id)).None? then None else Some(Find(vms, Is(id)).value.(state := state))
  {
    if vms != [] {
      var before := vms[..|vms|-1];
      FindChanged(before, id, state);
      var after := Map(vms, InState(id, state));
      assert after[..|after|-1] == Map(before, InState(id, state));
    }
  }

  lemma {:induction false} WaitedFinds(c: Cloud, id: string, target: string, polls: seq<Poll>)
    requires Find(c.vms, Is(id)).Some?
    ensures Waited(c, id, target, polls).1 ==>
              Find(Waited(c, id, target, polls).0.vms, Is(id)) == Some(Find(c.vms, Is(id)).value.(state := target))
    decreases |polls|
  {
    if polls != [] && polls[0].Shows? {
      FindChanged(c.vms, id, polls[0].state);
      if polls[0].state != target {
        WaitedFinds(Changed(c, id, polls[0].state), id, target, polls[1..]);
      }
    }
  }

  /** A Get that reaches the API after a Create finds the very instance that Create returned, tags
      included if they were accepted. */
  lemma GetFindsCreated(c: Cloud, cluster: string, o: Order, used: set<string>, cache: Cache<Instance>, now: int)
    requires CloudOk(c, used) && o.course.id !in used && Lookup(cache, Key(o.course.id), now).None?
    requires Succeeds(o) && !o.course.tagsRefused
    ensures Created(c, cluster, o).1.Some?
    ensures Got(Created(c, cluster, o).0, cache, now, o.course.id, Faults(false, false, false)).0 ==
            Found(Created(c, cluster, o).1.value)
  {
    CreateSucceedsIff(c, cluster, o);
    var deployed := Deployed(c, Ordered(o));
    DeployedOk(c, Ordered(o), used);
    FoundIffExists(c, o.course.id);
    assert deployed.vms[..|c.vms|] == c.vms;
    assert Find(deployed.vms, Is(o.course.id)) == Some(Ordered(o));
    WaitedFinds(deployed, o.course.id, "Running", o.course.polls);
  }

  /** A Get that reaches the API gives every VM that List shows as the instance that List shows. */
  lemma GetFindsListed(c: Cloud, used: set<string>, cache: Cache<Instance>, now: int, id: string) returns (i: Instance)
    requires CloudOk(c, used) && Lookup(cache, Key(id), now).None? && Exists(c, id) && MANAGED_BY in TagsOf(c, id)
    ensures Got(c, cache, now, id, Faults(false, false, false)).0 == Found(i) && i in Listed(c, {})
  {
    FoundIffExists(c, id);
    var v := Find(c.vms, Is(id)).value;
    i := ToInstance(v, TagsOf(c, id));
    assert v in c.vms;
    FilterMembers(c.vms, IsListed(c, {}), v);
    var f, shown := Filter(c.vms, IsListed(c, {})), Listed(c, {});
    var n :| 0 <= n < |f| && f[n] == v;
    assert shown[n] == i;
  }

  // ----- what Get and List show -----

  /** The instance is the VM with these tags, on its first network, if any. */
  ghost predicate Describes(v: VM, tags: TagMap, i: Instance) {
    && i.id == v.id && i.name == v.name && i.state == v.state && i.zone == v.zone && i.zoneId == v.zoneId
    && i.offering == v.offering && i.offeringId == v.offeringId && i.template == v.template && i.templateId == v.templateId
    && i.created == v.created && i.tags == tags
    && (v.nics != [] ==> i.networkId == v.nics[0].networkId && i.ipAddress == v.nics[0].ipAddress)
    && (v.nics == [] ==> i.networkId == "" && i.ipAddress == "")
  }

  lemma FindsTheOne(vms: seq<VM>, v: VM)
    requires UniqueBy(vms, IdOf()) && v in vms
    ensures Find(vms, Is(v.id)) == Some(v)
  {
    var i :| 0 <= i < |vms| && vms[i] == v;
    assert Is(v.id)(vms[i]);
    assert forall j | 0 <= j < |vms| && j != i :: IdOf()(vms[j]) != IdOf()(vms[i]);
  }

  /** A live entry is the reply, whatever the cloud holds.  Otherwise the query may fail or find no VM,
      and nothing is cached. */
  lemma GetWithoutVM(c: Cloud, cache: Cache<Instance>, now: int, id: string, f: Faults)
    ensures var (r, after) := Got(c, cache, now, id, f);
            var live := Key(id) in cache && now <= cache[Key(id)].setAt + TTL;
            && (live ==> r == Found(cache[Key(id)].value) && after == cache)
            && (!live && f.query ==> r == QueryFailed && after == cache)
            && (!live && !f.query && !Exists(c, id) ==> r == NotFound && after == cache)
  {
    FoundIffExists(c, id);
  }

  /** Or the reply is the VM as the cloud has it, with its tags if they can be read, and is cached. */
  lemma GetMeans(c: Cloud, used: set<string>, cache: Cache<Instance>, now: int, v: VM, f: Faults)
    requires CloudOk(c, used) && v in c.vms && !f.query
    requires Key(v.id) in cache ==> now > cache[Key(v.id)].setAt + TTL
    ensures var (r, after) := Got(c, cache, now, v.id, f);
            && r.Found? && Describes(v, if f.readTags || v.id !in c.tags then map[] else c.tags[v.id], r.instance)
            && after == cache[Key(v.id) := Entry(r.instance, now)]
  {
    FindsTheOne(c.vms, v);
  }

  /** List shows a VM of the cloud, as it is and with its tags, exactly if its tags can be read and say
      that it is managed; and it shows nothing else. */
  lemma ListMeans(c: Cloud, unreadable: set<string>)
    ensures forall v | v in c.vms ::
              (exists i :: i in Listed(c, unreadable) && Describes(v, TagsOf(c, v.id), i)) <==>
              v.id !in unreadable && v.id in c.tags && "karpenter.sh/managed-by" in c.tags[v.id]
    ensures forall i | i in Listed(c, unreadable) :: exists v :: v in c.vms && Describes(v, TagsOf(c, v.id), i)
  {
    var f, shown := Filter(c.vms, IsListed(c, unreadable)), Listed(c, unreadable);
    forall v | v in c.vms
      ensures (exists i :: i in shown && Describes(v, TagsOf(c, v.id), i)) <==>
              v.id !in unreadable && v.id in c.tags && "karpenter.sh/managed-by" in c.tags[v.id]
    {
      FilterMembers(c.vms, IsListed(c, unreadable), v);
      if v in f {
        var n :| 0 <= n < |f| && f[n] == v;
        assert shown[n] in shown && Describes(v, TagsOf(c, v.id), shown[n]);
      }
      if i :| i in shown && Describes(v, TagsOf(c, v.id), i) {
        var n :| 0 <= n < |shown| && shown[n] == i;
        FilterMembers(c.vms, IsListed(c, unreadable), f[n]);
        assert f[n].id == v.id;
      }
    }
    forall i | i in shown ensures exists v :: v in c.vms && Describes(v, TagsOf(c, v.id), i) {
      var n :| 0 <= n < |shown| && shown[n] == i;
      FilterMembers(c.vms, IsListed(c, unreadable), f[n]);
      assert Describes(f[n], TagsOf(c, f[n].id), i);
    }
  }

  // ----- what the cache serves, over whole runs -----

  lemma InstanceKeysApart(a: string, b: string)
    ensures Key(a) == Key(b) <==> a == b
  {
    SameTail("instance-", a, b);
  }

  /** No Delete of the VM goes through in the run. */
  ghost predicate NoneDeletes(cluster: string, s: State, steps: seq<Step>, id: string)
    requires Runs(cluster, s, steps)
    decreases |steps|
  {
    steps != [] ==>
      var before, last := After(cluster, s, steps[..|steps|-1]), steps[|steps|-1];
      && NoneDeletes(cluster, s, steps[..|steps|-1], id)
      && (last.DeleteVM? && last.id == id ==> Removed(before.cloud, before.cache, before.now, id, last.faults).0 != Deleted)
  }

  ghost predicate Serves(s: State, id: string, e: Entry<Instance>) {
    Key(id) in s.cache && s.cache[Key(id)] == e
  }

  lemma ServesNext(cluster: string, s: State, step: Step, id: string, e: Entry<Instance>)
    requires Serves(s, id, e) && Live(e, s.now) && Enabled(s, step)
    requires step.DeleteVM? && step.id == id ==> Removed(s.cloud, s.cache, s.now, id, step.faults).0 != Deleted
    ensures Serves(Next(cluster, s, step), id, e)
  {
    if step.GetVM? || step.DeleteVM? {
      InstanceKeysApart(step.id, id);
    }
  }

  lemma {:induction false} ServedOn(cluster: string, s: State, more: seq<Step>, id: string, e: Entry<Instance>)
    requires Serves(s, id, e) && Runs(cluster, s, more) && NoneDeletes(cluster, s, more, id)
    requires After(cluster, s, more).now <= e.setAt + TTL
    ensures Serves(After(cluster, s, more), id, e)
  {
    if more != [] {
      var n := |more| - 1;
      ServedOn(cluster, s, more[..n], id, e);
      ServesNext(cluster, After(cluster, s, more[..n]), more[n], id, e);
    }
  }

  /** Once a Get has asked the API and found an instance, every later Get of that id replies with that
      very instance for one TTL, whatever the cloud then holds and whatever fails, as long as no
      Delete of it goes through. */
  lemma GetIsStable(cluster: string, s: State, id: string, first: Faults, more: seq<Step>, f: Faults)
    requires Lookup(s.cache, Key(id), s.now).None? && Got(s.cloud, s.cache, s.now, id, first).0.Found?
    requires Runs(cluster, Next(cluster, s, GetVM(id, first)), more)
    requires NoneDeletes(cluster, Next(cluster, s, GetVM(id, first)), more, id)
    requires After(cluster, Next(cluster, s, GetVM(id, first)), more).now <= s.now + TTL
    ensures var later := After(cluster, Next(cluster, s, GetVM(id, first)), more);
            Got(later.cloud, later.cache, later.now, id, f) == (Got(s.cloud, s.cache, s.now, id, first).0, later.cache)
  {
    var i := Got(s.cloud, s.cache, s.now, id, first).0.instance;
    ServedOn(cluster, Next(cluster, s, GetVM(id, first)), more, id, Entry(i, s.now));
  }

  // ----- ownership over whole runs -----

  ghost predicate Inv(s: State) {
    CloudOk(s.cloud, s.used)
  }

  /** A change that is about one other VM, or takes this one away, leaves this one's tags alone. */
  ghost predicate KeepsTags(c: Cloud, c': Cloud, id: string) {
    Exists(c', id) ==> Exists(c, id) && TagsOf(c', id) == TagsOf(c, id)
  }

  lemma ForeignOk(c: Cloud, vm: VM, tags: TagMap, used: set<string>)
    requires CloudOk(c, used) && vm.id !in used
    ensures CloudOk(Tagged(Deployed(c, vm), vm.id, tags), used + {vm.id})
    ensures OnlyAbout(c, Tagged(Deployed(c, vm), vm.id, tags), vm.id)
  {
    DeployedOk(c, vm, used);
    TaggedOk(Deployed(c, vm), vm.id, tags, used + {vm.id});
    OnlyAboutTwice(c, Deployed(c, vm), Tagged(Deployed(c, vm), vm.id, tags), vm.id);
  }

  lemma OnlyAboutKeepsTags(c: Cloud, c': Cloud, other: string, id: string)
    requires OnlyAbout(c, c', other) && (id == other ==> !Exists(c', id))
    ensures KeepsTags(c, c', id)
  {}

  /** A VM keeps the tags it has, and one that is gone stays gone. */
  lemma StepKeepsTags(cluster: string, s: State, step: Step, id: string)
    requires Inv(s) && Enabled(s, step)
    ensures Inv(Next(cluster, s, step)) && s.used <= Next(cluster, s, step).used
    ensures id in s.used ==> KeepsTags(s.cloud, Next(cluster, s, step).cloud, id)
  {
    var c' := Next(cluster, s, step).cloud;
    match step
    case CreateVM(o) =>
      CreatedFacts(s.cloud, cluster, o, s.used);
      if id in s.used { OnlyAboutKeepsTags(s.cloud, c', o.course.id, id); }
    case DeleteVM(vm, _) =>
      DestroyedOk(s.cloud, vm, s.used);
      if c' != s.cloud { OnlyAboutKeepsTags(s.cloud, c', vm, id); }
    case Foreign(vm, tags) =>
      ForeignOk(s.cloud, vm, tags, s.used);
      if id in s.used { OnlyAboutKeepsTags(s.cloud, c', vm.id, id); }
    case Lost(vm) =>
      DestroyedOk(s.cloud, vm, s.used);
      OnlyAboutKeepsTags(s.cloud, c', vm, id);
    case _ =>
  }

  lemma {:induction false} InvAlways(cluster: string, now: int, steps: seq<Step>)
    requires Runs(cluster, Start(now), steps)
    ensures Inv(After(cluster, Start(now), steps))
  {
    if steps != [] {
      InvAlways(cluster, now, steps[..|steps|-1]);
      StepKeepsTags(cluster, After(cluster, Start(now), steps[..|steps|-1]), steps[|steps|-1], "");
    }
  }

  lemma {:induction false} TagsStay(cluster: string, s: State, more: seq<Step>, id: string)
    requires Inv(s) && Runs(cluster, s, more) && id in s.used
    ensures Inv(After(cluster, s, more)) && id in After(cluster, s, more).used
    ensures Exists(After(cluster, s, more).cloud, id) ==>
              Exists(s.cloud, id) && TagsOf(After(cluster, s, more).cloud, id) == TagsOf(s.cloud, id)
  {
    if more != [] {
      TagsStay(cluster, s, more[..|more|-1], id);
      StepKeepsTags(cluster, After(cluster, s, more[..|more|-1]), more[|more|-1], id);
    }
  }

  /** List shows the VM with this id. */
  ghost predicate IsShown(c: Cloud, id: string) {
    exists i | i in Listed(c, {}) :: i.id == id
  }

  /** When every tag can be read, List shows exactly the VMs that carry the managed-by key. */
  lemma ListIsManagedVMs(c: Cloud, id: string)
    ensures IsShown(c, id) <==> Exists(c, id) && "karpenter.sh/managed-by" in TagsOf(c, id)
  {
    var f := Filter(c.vms, IsListed(c, {}));
    var shown := Listed(c, {});
    if IsShown(c, id) {
      var i :| i in shown && i.id == id;
      var k :| 0 <= k < |shown| && shown[k] == i;
      assert shown[k] == AsInstance(c)(f[k]);
      FilterMembers(c.vms, IsListed(c, {}), f[k]);
    }
    if Exists(c, id) && MANAGED_BY in TagsOf(c, id) {
      var j :| 0 <= j < |c.vms| && IdOf()(c.vms[j]) == id;
      FilterMembers(c.vms, IsListed(c, {}), c.vms[j]);
      var k :| 0 <= k < |f| && f[k] == c.vms[j];
      assert shown[k] == AsInstance(c)(f[k]);
      assert shown[k] in shown;
    }
  }

  /** A tag read that fails hides that VM from List and no other. */
  lemma UnreadableIsHidden(c: Cloud, unreadable: set<string>)
    ensures Listed(c, unreadable) == Map(Filter(Filter(c.vms, IsListed(c, {})), Readable(unreadable)), AsInstance(c))
  {
    FilterTwice(c.vms, IsListed(c, {}), Readable(unreadable), IsListed(c, unreadable));
  }

  function Readable(unreadable: set<string>): VM -> bool { (v: VM) => v.id !in unreadable }

  /** From a Create on, in every run, List shows its VM as long as it exists if Create succeeded and
      its tags were accepted, and never otherwise: a failed Create, or one whose tagging was
      refused, leaves a VM that List never shows. */
  lemma CreatedIsShownIff(cluster: string, now: int, steps: seq<Step>, o: Order, more: seq<Step>)
    requires Runs(cluster, Start(now), steps) && Enabled(After(cluster, Start(now), steps), CreateVM(o))
    requires Runs(cluster, Next(cluster, After(cluster, Start(now), steps), CreateVM(o)), more)
    ensures var before := After(cluster, Start(now), steps);
            var later := After(cluster, Next(cluster, before, CreateVM(o)), more);
            IsShown(later.cloud, o.course.id) <==>
              Exists(later.cloud, o.course.id) && Succeeds(o) && !o.course.tagsRefused
  {
    InvAlways(cluster, now, steps);
    var before := After(cluster, Start(now), steps);
    var s := Next(cluster, before, CreateVM(o));
    CreateSucceedsIff(before.cloud, cluster, o);
    CreatedFacts(before.cloud, cluster, o, before.used);
    ManagedIsTagged(cluster, OwnerOf(o));
    TagsStay(cluster, s, more, o.course.id);
    ListIsManagedVMs(After(cluster, s, more).cloud, o.course.id);
  }

  /** A failed Create adds at most one VM, and changes nothing else. */
  lemma FailedCreateLeavesAtMostOne(cluster: string, now: int, steps: seq<Step>, o: Order)
    requires Runs(cluster, Start(now), steps) && Enabled(After(cluster, Start(now), steps), CreateVM(o))
    requires !Succeeds(o)
    ensures var c, c' := After(cluster, Start(now), steps).cloud, Created(After(cluster, Start(now), steps).cloud, cluster, o).0;
            && Created(c, cluster, o).1.None?
            && OnlyAbout(c, c', o.course.id) && UniqueBy(c'.vms, IdOf()) && !Exists(c, o.course.id) && TagsOf(c', o.course.id) == map[]
  {
    InvAlways(cluster, now, steps);
    var s := After(cluster, Start(now), steps);
    CreateSucceedsIff(s.cloud, cluster, o);
    CreatedFacts(s.cloud, cluster, o, s.used);
  }

  /** Whatever tags the user adds, the managed-by key is there. */
  lemma ManagedIsTagged(cluster: string, o: Owner)
    ensures MANAGED_BY in TagsFor(cluster, o)
  {}

  // ----- Delete -----

  /** A Delete that returns nil leaves no VM and no live cache entry, touches no other VM and no
      other entry, and a second one right after it succeeds without asking for a destruction. */
  lemma DeleteSucceeds(s: State, id: string, f: Faults, again: Faults)
    requires Inv(s) && Removed(s.cloud, s.cache, s.now, id, f).0 == Deleted && !again.query
    ensures var (_, cloud, cache) := Removed(s.cloud, s.cache, s.now, id, f);
            && !Exists(cloud, id) && OnlyAbout(s.cloud, cloud, id)
            && Lookup(cache, Key(id), s.now).None?
            && (forall k | k != Key(id) :: k in cache <==> k in s.cache)
            && (forall k | k != Key(id) && k in cache :: cache[k] == s.cache[k])
            && Removed(cloud, cache, s.now, id, again) == (Deleted, cloud, cache)
  {
    var (_, cloud, cache) := Removed(s.cloud, s.cache, s.now, id, f);
    FoundIffExists(s.cloud, id);
    DestroyedOk(s.cloud, id, s.used);
    FoundIffExists(cloud, id);
  }

  lemma FoundIffExists(c: Cloud, id: string)
    ensures Find(c.vms, Is(id)).Some? <==> Exists(c, id)
  {
    if Exists(c, id) {
      var i :| 0 <= i < |c.vms| && IdOf()(c.vms[i]) == id;
      assert Is(id)(c.vms[i]);
    }
    if Find(c.vms, Is(id)).Some? {
      var i :| 0 <= i < |c.vms| && Is(id)(c.vms[i]);
      assert IdOf()(c.vms[i]) == id;
    }
  }

  /** Delete succeeds exactly when a VM that exists can be destroyed and was found, in the cache or by the
      query, or when the query finds that there is none.  It says which of the two steps failed, and
      a failed Delete leaves the cloud as it was. */
  lemma DeleteIff(c: Cloud, cache: Cache<Instance>, now: int, id: string, f: Faults)
    ensures var (r, after, _) := Removed(c, cache, now, id, f);
            var live := Key(id) in cache && now <= cache[Key(id)].setAt + TTL;
            && (r == Deleted <==> if Exists(c, id) then (live || !f.query) && !f.destroy else !live && !f.query)
            && (r == NotChecked <==> !live && f.query)
            && (r != Deleted || !Exists(c, id) ==> after == c)
  {
    FoundIffExists(c, id);
  }

  /** Deleting a VM that no longer exists is the success the code intends exactly when the query
      goes through and no live cache entry still vouches for the VM. */
  lemma DeleteOfAbsentIff(c: Cloud, cache: Cache<Instance>, now: int, id: string, f: Faults)
    requires !Exists(c, id)
    ensures Removed(c, cache, now, id, f).0 == Deleted <==> Lookup(cache, Key(id), now).None? && !f.query
  {
    FoundIffExists(c, id);
  }

  /** Such an entry outlives its VM: after a Get, losing the VM makes every Delete fail for the whole
      of the entry's life. */
  lemma LostVMCannotBeDeleted(s: State, id: string, read: Faults, wait: nat, f: Faults)
    requires Inv(s) && Exists(s.cloud, id) && Lookup(s.cache, Key(id), s.now).None? && !read.query && wait <= TTL
    ensures var cached := Got(s.cloud, s.cache, s.now, id, read).1;
            Removed(Destroyed(s.cloud, id), cached, s.now + wait, id, f).0 == NotDestroyed
  {
    FoundIffExists(s.cloud, id);
    DestroyedOk(s.cloud, id, s.used);
  }
}
