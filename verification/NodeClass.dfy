/** The controller that reconciles the status of a CloudStackNodeClass, and the store it reads from
    and writes to. */
module NodeClassController {
  import opened Lists
  import opened Resolution
  import opened Conditions
  import opened NodeClassApi
  import N = NetworkProvider
  import T = TemplateProvider

  // ----- the store -----

  /** Kubernetes optimistic concurrency: a status update is accepted only if the object is still the
      one that was read, and replaces nothing but the status. */
  function UpdateStatus(stored: Option<Object>, copy: Object): Option<Object> {
    if stored.Some? && stored.value.version == copy.version
    then Some(stored.value.(status := copy.status, version := copy.version + 1))
    else stored
  }

  class NodeClass {
    var generation: nat
    var version: nat
    var deleted: bool
    var spec: Spec
    var networks: seq<NetworkRef>
    var templates: seq<TemplateRef>
    var conditions: seq<Condition>

    function Value(): Object
      reads this
    {
      Object(generation, version, deleted, spec, Status(networks, templates, conditions))
    }

    constructor (o: Object)
      ensures Value() == o
    {
      generation, version, deleted, spec := o.generation, o.version, o.deleted, o.spec;
      networks, templates, conditions := o.status.networks, o.status.templates, o.status.conditions;
    }

    method GetCondition(kind: string) returns (r: Option<Condition>)
      ensures r == Lookup(conditions, kind)
    {
      for i := 0 to |conditions|
        invariant Lookup(conditions, kind) == Lookup(conditions[i..], kind)
      {
        if conditions[i].kind == kind {
          return Some(conditions[i]);
        }
      }
      return None;
    }

    method SetCondition(c: Condition)
      modifies this`conditions
      ensures conditions == With(old(conditions), c)
    {
      for i := 0 to |conditions|
        invariant conditions == old(conditions)
        invariant With(conditions, c) == conditions[..i] + With(conditions[i..], c)
      {
        if conditions[i].kind == c.kind {
          assert conditions[i := c] == conditions[..i] + ([c] + conditions[i + 1..]);
          conditions := conditions[i := c];
          return;
        }
        assert conditions[..i + 1] == conditions[..i] + [conditions[i]];
      }
      assert conditions[..|conditions|] == conditions;
      conditions := conditions + [c];
    }
  }

  class Store {
    var stored: Option<Object>

    constructor (o: Option<Object>)
      ensures stored == o
    {
      stored := o;
    }

    /** `fails` stands for every failure that is not absence. */
    method Get(fails: bool) returns (ok: bool, copy: NodeClass?)
      ensures ok <==> !fails
      ensures copy != null <==> !fails && stored.Some?
      ensures copy != null ==> fresh(copy) && copy.Value() == stored.value
    {
      ok, copy := !fails, null;
      if ok && stored.Some? {
        copy := new NodeClass(stored.value);
      }
    }

    /** Status().Update: `fails` stands for every failure that is not a conflict. */
    method Update(copy: NodeClass, fails: bool) returns (ok: bool)
      modifies this
      ensures stored == if fails then old(stored) else UpdateStatus(old(stored), copy.Value())
      ensures ok <==> !fails && old(stored).Some? && old(stored).value.version == copy.version
    {
      ok := !fails && stored.Some? && stored.value.version == copy.version;
      if !fails {
        stored := UpdateStatus(stored, copy.Value());
      }
    }
  }

  // ----- what a reconciliation decides -----

  datatype Zone = Zone(id: string, name: string, networkType: string, allocationState: string)

  function Named(name: string): Zone -> bool { (z: Zone) => z.name == name }

  /** GetByName, given what List answered. */
  function ZoneByName(zones: Option<seq<Zone>>, name: string): Option<Zone> {
    if zones.None? then None else Find(zones.value, Named(name))
  }

  function NetworkRefOf(): N.Network -> NetworkRef { (n: N.Network) => NetworkRef(n.id, n.name, n.zone, n.kind) }

  function TemplateRefOf(): T.Template -> TemplateRef { (t: T.Template) => TemplateRef(t.id, t.name, t.osTypeName, t.zone) }

  /** setCondition on the copy: the generation observed is the copy's own. */
  function Mark(o: Object, status: ConditionStatus, reason: string, now: int): Object {
    o.(status := o.status.(conditions := With(o.status.conditions, Condition("Ready", status, reason, o.generation, now))))
  }

  function Resolves(o: Object, networks: seq<N.Network>, templates: seq<T.Template>, now: int): Object {
    Mark(o.(status := Status(Map(networks, NetworkRefOf()), Map(templates, TemplateRefOf()), o.status.conditions)),
         True, "Ready", now)
  }

  datatype Outcome = Finished | RetryAfterMinutes(minutes: nat) | Error

  /** The answers of the three providers to one reconciliation. */
  datatype Answers = Answers(zones: Option<seq<Zone>>, networks: Option<seq<N.Network>>, templates: Option<seq<T.Template>>)

  /** The object the controller asks the store to keep, and what it does next if that succeeds. */
  function Judge(o: Object, a: Answers, now: int): (Object, Outcome) {
    if ZoneByName(a.zones, o.spec.zone).None? then (Mark(o, False, "ZoneValidationFailed", now), RetryAfterMinutes(5))
    else
      var nets := N.Answered(a.networks, o.spec.networkTerms);
      if nets.Err? then (Mark(o, False, "NetworkResolutionFailed", now), RetryAfterMinutes(1))
      else
        var tpls := T.Answered(a.templates, o.spec.templateTerms);
        if tpls.Err? then (Mark(o, False, "TemplateResolutionFailed", now), RetryAfterMinutes(1))
        else (Resolves(o, nets.value, tpls.value, now), RetryAfterMinutes(15))
  }

  /** A whole reconciliation that nobody interferes with. */
  function ReconcileOnce(stored: Option<Object>, a: Answers, now: int, readFails: bool, fails: bool): (Option<Object>, Outcome) {
    if readFails then (stored, Error)
    else if stored.None? || stored.value.deleted then (stored, Finished)
    else
      var (copy, outcome) := Judge(stored.value, a, now);
      if fails then (stored, if outcome == RetryAfterMinutes(15) then Error else outcome)
      else (UpdateStatus(stored, copy), outcome)
  }

  /** setCondition: stamps the time and the generation the copy was read at. */
  method SetReady(nodeClass: NodeClass, status: ConditionStatus, reason: string, now: int)
    modifies nodeClass
    ensures nodeClass.Value() == Mark(old(nodeClass.Value()), status, reason, now)
  {
    nodeClass.SetCondition(Condition("Ready", status, reason, nodeClass.generation, now));
  }

  /** Reconcile. */
  method Reconcile(store: Store, a: Answers, now: int, readFails: bool, fails: bool) returns (outcome: Outcome)
    modifies store
    ensures (store.stored, outcome) == ReconcileOnce(old(store.stored), a, now, readFails, fails)
  {
    var read, nodeClass := store.Get(readFails);
    if !read {
      return Error;
    }
    if nodeClass == null {
      return Finished;
    }
    if nodeClass.deleted {
      return Finished;
    }
    if ZoneByName(a.zones, nodeClass.spec.zone).None? {
      SetReady(nodeClass, False, "ZoneValidationFailed", now);
      var _ := store.Update(nodeClass, fails);
      return RetryAfterMinutes(5);
    }
    var nets := N.Answered(a.networks, nodeClass.spec.networkTerms);
    if nets.Err? {
      SetReady(nodeClass, False, "NetworkResolutionFailed", now);
      var _ := store.Update(nodeClass, fails);
      return RetryAfterMinutes(1);
    }
    var tpls := T.Answered(a.templates, nodeClass.spec.templateTerms);
    if tpls.Err? {
      SetReady(nodeClass, False, "TemplateResolutionFailed", now);
      var _ := store.Update(nodeClass, fails);
      return RetryAfterMinutes(1);
    }
    nodeClass.networks := Map(nets.value, NetworkRefOf());
    nodeClass.templates := Map(tpls.value, TemplateRefOf());
    SetReady(nodeClass, True, "Ready", now);
    var ok := store.Update(nodeClass, fails);
    if !ok {
      return Error;
    }
    return RetryAfterMinutes(15);
  }

  // ----- what a reconciliation leaves, in the terms of the resource -----

  /** One entry per network, in order, with its id, name, zone and kind. */
  ghost predicate NetworksShown(networks: seq<N.Network>, refs: seq<NetworkRef>) {
    && |refs| == |networks|
    && forall i | 0 <= i < |refs| ::
         && refs[i].id == networks[i].id && refs[i].name == networks[i].name
         && refs[i].zone == networks[i].zone && refs[i].kind == networks[i].kind
  }

  /** One entry per template, in order, with its id, name, OS type name and zone. */
  ghost predicate TemplatesShown(templates: seq<T.Template>, refs: seq<TemplateRef>) {
    && |refs| == |templates|
    && forall i | 0 <= i < |refs| ::
         && refs[i].id == templates[i].id && refs[i].name == templates[i].name
         && refs[i].osType == templates[i].osTypeName && refs[i].zone == templates[i].zone
  }

  ghost predicate ZoneListed(zones: Option<seq<Zone>>, name: string) {
    zones.Some? && exists z | z in zones.value :: z.name == name
  }

  /** The networks are the first usable ones of every id among those the terms select, in order, and
      there are some. */
  ghost predicate NetworksOf(listed: Option<seq<N.Network>>, terms: seq<N.Term>, networks: seq<N.Network>) {
    listed.Some? && networks != [] && KeepsFirstUsable(FlatMap(terms, N.Selector(listed.value)), N.ById(), N.Usable(), networks)
  }

  ghost predicate TemplatesOf(listed: Option<seq<T.Template>>, terms: seq<T.Term>, templates: seq<T.Template>) {
    listed.Some? && templates != [] && KeepsFirstUsable(FlatMap(terms, T.Selector(listed.value)), T.ById(), T.Usable(), templates)
  }

  lemma ZoneListedIff(zones: Option<seq<Zone>>, name: string)
    ensures ZoneByName(zones, name).Some? <==> ZoneListed(zones, name)
  {
    if ZoneListed(zones, name) {
      var z :| z in zones.value && z.name == name;
      var i :| 0 <= i < |zones.value| && zones.value[i] == z;
      assert Named(name)(zones.value[i]);
    }
  }

  lemma NetworksOfIff(listed: Option<seq<N.Network>>, terms: seq<N.Term>, networks: seq<N.Network>)
    ensures N.Answered(listed, terms) == N.Ok(networks) <==> NetworksOf(listed, terms, networks)
  {
    N.UsableMeans();
    N.AnsweredIff(listed, terms, N.ById(), N.Usable(), networks);
  }

  lemma TemplatesOfIff(listed: Option<seq<T.Template>>, terms: seq<T.Term>, templates: seq<T.Template>)
    ensures T.Answered(listed, terms) == T.Ok(templates) <==> TemplatesOf(listed, terms, templates)
  {
    T.UsableMeans();
    T.AnsweredIff(listed, terms, T.ById(), T.Usable(), templates);
  }

  /** The stored object after a reconciliation differs from the one before in the lists, where they
      resolve, and in the Ready condition, which says what was wrong first: the zone, the networks or
      the templates. */
  ghost predicate Judged(o: Object, after: Object, status: ConditionStatus, reason: string, now: int) {
    && after.spec == o.spec && after.generation == o.generation && after.deleted == o.deleted && after.version == o.version + 1
    && (forall kind | kind != "Ready" :: Lookup(after.status.conditions, kind) == Lookup(o.status.conditions, kind))
    && Lookup(after.status.conditions, "Ready") == Some(Condition("Ready", status, reason, o.generation, now))
  }

  ghost predicate ListsKept(o: Object, after: Object) {
    after.status.networks == o.status.networks && after.status.templates == o.status.templates
  }

  lemma MarkedIsJudged(o: Object, status: ConditionStatus, reason: string, now: int)
    ensures var marked := Mark(o, status, reason, now);
            marked.version == o.version && Judged(o, UpdateStatus(Some(o), marked).value, status, reason, now) && ListsKept(o, marked)
  {
    var c := Condition("Ready", status, reason, o.generation, now);
    forall kind ensures Lookup(With(o.status.conditions, c), kind) == if kind == "Ready" then Some(c) else Lookup(o.status.conditions, kind) {
      LookupAfterWith(o.status.conditions, c, kind);
    }
  }

  /** What Reconcile decides and stores, and when it comes again, by the first thing that is wrong. */
  lemma ReconcileMeans(o: Object, a: Answers, now: int)
    requires !o.deleted
    ensures var (stored, outcome) := ReconcileOnce(Some(o), a, now, false, false);
            && stored.Some?
            && (!ZoneListed(a.zones, o.spec.zone) ==>
                  && Judged(o, stored.value, False, "ZoneValidationFailed", now) && ListsKept(o, stored.value)
                  && outcome == RetryAfterMinutes(5))
            && (ZoneListed(a.zones, o.spec.zone) && (forall ns :: !NetworksOf(a.networks, o.spec.networkTerms, ns)) ==>
                  && Judged(o, stored.value, False, "NetworkResolutionFailed", now) && ListsKept(o, stored.value)
                  && outcome == RetryAfterMinutes(1))
            && (forall ns | ZoneListed(a.zones, o.spec.zone) && NetworksOf(a.networks, o.spec.networkTerms, ns) ::
                  && ((forall ts :: !TemplatesOf(a.templates, o.spec.templateTerms, ts)) ==>
                        && Judged(o, stored.value, False, "TemplateResolutionFailed", now) && ListsKept(o, stored.value)
                        && outcome == RetryAfterMinutes(1))
                  && (forall ts | TemplatesOf(a.templates, o.spec.templateTerms, ts) ::
                        && Judged(o, stored.value, True, "Ready", now)
                        && NetworksShown(ns, stored.value.status.networks) && TemplatesShown(ts, stored.value.status.templates)
                        && outcome == RetryAfterMinutes(15)))
  {
    ZoneListedIff(a.zones, o.spec.zone);
    forall ns ensures N.Answered(a.networks, o.spec.networkTerms) == N.Ok(ns) <==> NetworksOf(a.networks, o.spec.networkTerms, ns) {
      NetworksOfIff(a.networks, o.spec.networkTerms, ns);
    }
    forall ts ensures T.Answered(a.templates, o.spec.templateTerms) == T.Ok(ts) <==> TemplatesOf(a.templates, o.spec.templateTerms, ts) {
      TemplatesOfIff(a.templates, o.spec.templateTerms, ts);
    }
    MarkedIsJudged(o, False, "ZoneValidationFailed", now);
    MarkedIsJudged(o, False, "NetworkResolutionFailed", now);
    MarkedIsJudged(o, False, "TemplateResolutionFailed", now);
    var nets, tpls := N.Answered(a.networks, o.spec.networkTerms), T.Answered(a.templates, o.spec.templateTerms);
    if nets.Ok? && tpls.Ok? {
      ResolvedIsJudged(o, nets.value, tpls.value, now);
    }
    assert nets.Ok? ==> NetworksOf(a.networks, o.spec.networkTerms, nets.value);
    assert tpls.Ok? ==> TemplatesOf(a.templates, o.spec.templateTerms, tpls.value);
  }

  /** A failing read is an error, and an object that is gone or going is left alone.  A failing write
      leaves the object as it was, and is an error only for resolved lists: for a failure the
      controller comes back as if it had recorded it. */
  lemma ReconcileLeavesAlone(stored: Option<Object>, a: Answers, now: int, fails: bool)
    ensures ReconcileOnce(stored, a, now, true, fails) == (stored, Error)
    ensures stored.None? || stored.value.deleted ==> ReconcileOnce(stored, a, now, false, fails) == (stored, Finished)
    ensures stored.Some? && !stored.value.deleted ==>
              var (after, outcome) := ReconcileOnce(stored, a, now, false, true);
              && after == stored
              && outcome == if (exists ns :: NetworksOf(a.networks, stored.value.spec.networkTerms, ns))
                              && (exists ts :: TemplatesOf(a.templates, stored.value.spec.templateTerms, ts))
                              && ZoneListed(a.zones, stored.value.spec.zone)
                            then Error else ReconcileOnce(stored, a, now, false, false).1
  {
    if stored.Some? {
      var spec := stored.value.spec;
      ZoneListedIff(a.zones, spec.zone);
      forall ns ensures N.Answered(a.networks, spec.networkTerms) == N.Ok(ns) <==> NetworksOf(a.networks, spec.networkTerms, ns) {
        NetworksOfIff(a.networks, spec.networkTerms, ns);
      }
      forall ts ensures T.Answered(a.templates, spec.templateTerms) == T.Ok(ts) <==> TemplatesOf(a.templates, spec.templateTerms, ts) {
        TemplatesOfIff(a.templates, spec.templateTerms, ts);
      }
      var nets, tpls := N.Answered(a.networks, spec.networkTerms), T.Answered(a.templates, spec.templateTerms);
      assert nets.Ok? ==> NetworksOf(a.networks, spec.networkTerms, nets.value);
      assert tpls.Ok? ==> TemplatesOf(a.templates, spec.templateTerms, tpls.value);
    }
  }

  lemma ResolvedIsJudged(o: Object, networks: seq<N.Network>, templates: seq<T.Template>, now: int)
    ensures var sent := Resolves(o, networks, templates, now);
            && sent.version == o.version && Judged(o, UpdateStatus(Some(o), sent).value, True, "Ready", now)
            && NetworksShown(networks, sent.status.networks) && TemplatesShown(templates, sent.status.templates)
  {
    MarkedIsJudged(o.(status := Status(Map(networks, NetworkRefOf()), Map(templates, TemplateRefOf()), o.status.conditions)), True, "Ready", now);
  }
}
