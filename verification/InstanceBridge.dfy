/** The state machine of the instance cache is about the methods of the instance provider: a Get or a
    Delete that nobody interferes with takes its calls to the replies, the cloud and the cache that
    the methods are proved to have. */
module InstanceBridge {
  import opened Lists
  import opened Tags
  import opened TtlCache
  import opened InstanceCache
  import V = InstanceProvider
  import R = InstanceRuns

  /** The same VMs exist, shown as they are with their tags, and the same instances were stored at the
      same times. */
  ghost predicate Matches(s: State, c: V.Cloud, cache: Cache<V.Instance>) {
    && (forall vm :: vm in s.vms <==> V.Exists(c, vm))
    && (forall v | v in c.vms :: v.id in s.vms && R.Describes(v, V.TagsOf(c, v.id), s.vms[v.id]))
    && forall vm :: SameEntry(s, cache, vm, V.Key(vm))
  }

  ghost predicate SameEntry(s: State, cache: Cache<V.Instance>, vm: string, key: string) {
    (vm in s.cache <==> key in cache) && (vm in s.cache ==> s.cache[vm].setAt == cache[key].setAt && s.cache[vm].value.seen == cache[key].value)
  }

  lemma EntryStored(s: State, s': State, cache: Cache<V.Instance>, id: string, e: Entry<V.Instance>, key: string, snap: Snapshot,
                    vm: string, other: string)
    requires SameEntry(s, cache, vm, other) && (other == key <==> vm == id)
    requires s'.cache == s.cache[id := Entry(snap, e.setAt)] && snap.seen == e.value
    ensures SameEntry(s', cache[key := e], vm, other)
  {}

  lemma MatchesStored(s: State, s': State, c: V.Cloud, cache: Cache<V.Instance>, id: string, instance: V.Instance, snap: Snapshot)
    requires Matches(s, c, cache) && s'.vms == s.vms && s'.cache == s.cache[id := Entry(snap, s.now)] && snap.seen == instance
    ensures Matches(s', c, cache[V.Key(id) := Entry(instance, s.now)])
  {
    forall vm ensures SameEntry(s', cache[V.Key(id) := Entry(instance, s.now)], vm, V.Key(vm)) {
      R.InstanceKeysApart(vm, id);
      EntryStored(s, s', cache, id, Entry(instance, s.now), V.Key(id), snap, vm, V.Key(vm));
    }
  }

  lemma EntryRemoved(s: State, s': State, cache: Cache<V.Instance>, id: string, key: string, vm: string, other: string)
    requires SameEntry(s, cache, vm, other) && (other == key <==> vm == id) && s'.cache == s.cache - {id}
    ensures SameEntry(s', cache - {key}, vm, other)
  {}

  lemma MatchesRemoved(s: State, s': State, c: V.Cloud, cache: Cache<V.Instance>, id: string, used: set<string>)
    requires Matches(s, c, cache) && R.CloudOk(c, used) && s'.vms == s.vms - {id} && s'.cache == s.cache - {id}
    ensures Matches(s', V.Destroyed(c, id), cache - {V.Key(id)})
  {
    R.DestroyedOk(c, id, used);
    forall v | v in V.Destroyed(c, id).vms ensures v.id in s'.vms && R.Describes(v, V.TagsOf(V.Destroyed(c, id), v.id), s'.vms[v.id]) {
      FilterMembers(c.vms, V.IsNot(id), v);
    }
    forall vm ensures SameEntry(s', cache - {V.Key(id)}, vm, V.Key(vm)) {
      R.InstanceKeysApart(vm, id);
      EntryRemoved(s, s', cache, id, V.Key(id), vm, V.Key(vm));
    }
  }

  /** Where a call is once its Get is over. */
  ghost function AfterReply(op: Op, r: V.GetReply): Pc {
    match r
    case Found(i) => AfterGet(op, i)
    case NotFound => Finished(if op == Get then NotFound else Deleted)
    case QueryFailed => Finished(Failed)
  }

  /** The call stands there, in a state that matches. */
  ghost predicate Stands(s: State, steps: seq<Step>, call: nat, op: Op, id: string, pc: Pc, c: V.Cloud, cache: Cache<V.Instance>) {
    && Runs(s, steps) && call in After(s, steps).calls && After(s, steps).calls[call] == Call(op, id, pc)
    && After(s, steps).now == s.now && Matches(After(s, steps), c, cache)
  }

  lemma AloneBegins(s: State, call: nat, op: Op, id: string, c: V.Cloud, cache: Cache<V.Instance>) returns (steps: seq<Step>)
    requires call !in s.calls && Matches(s, c, cache)
    ensures Stands(s, steps, call, op, id, Looking, c, cache)
  {
    steps := Then(s, [], Begin(call, op, id));
  }

  lemma SameLookup(s: State, c: V.Cloud, cache: Cache<V.Instance>, id: string)
    requires Matches(s, c, cache)
    ensures Lookup(s.cache, id, s.now).Some? <==> Lookup(cache, V.Key(id), s.now).Some?
    ensures Lookup(s.cache, id, s.now).Some? ==> Lookup(s.cache, id, s.now).value.seen == Lookup(cache, V.Key(id), s.now).value
  {
    assert SameEntry(s, cache, id, V.Key(id));
  }

  lemma AloneHits(s: State, call: nat, op: Op, id: string, c: V.Cloud, cache: Cache<V.Instance>) returns (steps: seq<Step>)
    requires call !in s.calls && Matches(s, c, cache) && Lookup(cache, V.Key(id), s.now).Some?
    ensures Stands(s, steps, call, op, id, AfterGet(op, Lookup(cache, V.Key(id), s.now).value), c, cache)
  {
    steps := AloneBegins(s, call, op, id, c, cache);
    SameLookup(After(s, steps), c, cache, id);
    steps := Then(s, steps, Look(call));
  }

  lemma AloneMisses(s: State, call: nat, op: Op, id: string, c: V.Cloud, cache: Cache<V.Instance>) returns (steps: seq<Step>)
    requires call !in s.calls && Matches(s, c, cache) && Lookup(cache, V.Key(id), s.now).None?
    ensures Stands(s, steps, call, op, id, Querying, c, cache)
  {
    steps := AloneBegins(s, call, op, id, c, cache);
    SameLookup(After(s, steps), c, cache, id);
    steps := Then(s, steps, Look(call));
  }

  /** Two instances that show the same VM with the same tags are the same. */
  lemma DescribedAlike(v: V.VM, tags: TagMap, i: V.Instance, j: V.Instance)
    requires R.Describes(v, tags, i) && R.Describes(v, tags, j)
    ensures i == j
  {}

  /** What a query shows is what the method Get makes of the VM. */
  lemma QueryShowsFound(s: State, c: V.Cloud, cache: Cache<V.Instance>, used: set<string>, id: string, f: V.Faults)
    requires Matches(s, c, cache) && R.CloudOk(c, used) && V.Exists(c, id)
    requires Lookup(cache, V.Key(id), s.now).None? && !f.query
    ensures var r := V.Got(c, cache, s.now, id, f).0;
            id in s.vms && r == V.Found(SeenNow(s, id, !f.readTags).seen)
  {
    var n :| 0 <= n < |c.vms| && V.IdOf()(c.vms[n]) == id;
    var v := c.vms[n];
    assert v in c.vms;
    R.GetMeans(c, used, cache, s.now, v, f);
    var tags := if f.readTags then map[] else V.TagsOf(c, id);
    DescribedAlike(v, tags, V.Got(c, cache, s.now, id, f).0.instance, SeenNow(s, id, !f.readTags).seen);
  }

  lemma AloneFailsToQuery(s: State, before: seq<Step>, call: nat, op: Op, id: string, c: V.Cloud, cache: Cache<V.Instance>)
    returns (steps: seq<Step>)
    requires Stands(s, before, call, op, id, Querying, c, cache)
    ensures Stands(s, steps, call, op, id, Finished(Failed), c, cache)
  {
    steps := Then(s, before, QueryFails(call));
  }

  lemma AloneQueries(s: State, before: seq<Step>, call: nat, op: Op, id: string, c: V.Cloud, cache: Cache<V.Instance>, tagsRead: bool)
    returns (steps: seq<Step>)
    requires Stands(s, before, call, op, id, Querying, c, cache)
    ensures Stands(s, steps, call, op, id,
                   if V.Exists(c, id) then Saw(SeenNow(After(s, before), id, tagsRead))
                   else Finished(if op == Get then NotFound else Deleted), c, cache)
  {
    steps := Then(s, before, Query(call, tagsRead));
  }

  lemma AloneStores(s: State, before: seq<Step>, call: nat, op: Op, id: string, c: V.Cloud, cache: Cache<V.Instance>, snap: Snapshot)
    returns (steps: seq<Step>)
    requires Stands(s, before, call, op, id, Saw(snap), c, cache)
    ensures Stands(s, steps, call, op, id, AfterGet(op, snap.seen), c, cache[V.Key(id) := Entry(snap.seen, s.now)])
  {
    steps := Then(s, before, Set(call));
    MatchesStored(After(s, before), After(s, steps), c, cache, id, snap.seen, snap);
  }

  /** A Get that has missed the cache. */
  lemma AloneAsks(s: State, before: seq<Step>, call: nat, op: Op, id: string, c: V.Cloud, cache: Cache<V.Instance>, f: V.Faults,
                  used: set<string>)
    returns (steps: seq<Step>)
    requires Stands(s, before, call, op, id, Querying, c, cache) && R.CloudOk(c, used)
    requires Lookup(cache, V.Key(id), s.now).None? && !f.query
    ensures var (r, after) := V.Got(c, cache, s.now, id, f);
            Stands(s, steps, call, op, id, AfterReply(op, r), c, after)
  {
    var looked := After(s, before);
    steps := AloneQueries(s, before, call, op, id, c, cache, !f.readTags);
    if V.Exists(c, id) {
      QueryShowsFound(looked, c, cache, used, id, f);
      steps := AloneStores(s, steps, call, op, id, c, cache, SeenNow(looked, id, !f.readTags));
    } else {
      R.GetWithoutVM(c, cache, s.now, id, f);
    }
  }

  /** The Get that both operations begin with. */
  lemma AloneGets(s: State, call: nat, op: Op, id: string, c: V.Cloud, cache: Cache<V.Instance>, f: V.Faults, used: set<string>)
    returns (steps: seq<Step>)
    requires call !in s.calls && Matches(s, c, cache) && R.CloudOk(c, used)
    ensures var (r, after) := V.Got(c, cache, s.now, id, f);
            Stands(s, steps, call, op, id, AfterReply(op, r), c, after)
  {
    R.GetWithoutVM(c, cache, s.now, id, f);
    if Lookup(cache, V.Key(id), s.now).Some? {
      steps := AloneHits(s, call, op, id, c, cache);
    } else {
      steps := AloneMisses(s, call, op, id, c, cache);
      if f.query {
        steps := AloneFailsToQuery(s, steps, call, op, id, c, cache);
      } else {
        steps := AloneAsks(s, steps, call, op, id, c, cache, f, used);
      }
    }
  }

  /** A Get by itself replies and caches as the method Get does, the instance included. */
  lemma AloneIsGot(s: State, call: nat, id: string, c: V.Cloud, cache: Cache<V.Instance>, f: V.Faults, used: set<string>)
    returns (steps: seq<Step>)
    requires call !in s.calls && Matches(s, c, cache) && R.CloudOk(c, used)
    ensures var (r, after) := V.Got(c, cache, s.now, id, f);
            Stands(s, steps, call, Get, id,
                   Finished(match r case Found(i) => Found(i) case NotFound => NotFound case QueryFailed => Failed), c, after)
  {
    steps := AloneGets(s, call, Get, id, c, cache, f, used);
  }

  lemma AloneDestroys(s: State, before: seq<Step>, call: nat, id: string, c: V.Cloud, cache: Cache<V.Instance>, used: set<string>)
    returns (steps: seq<Step>)
    requires Stands(s, before, call, Delete, id, Destroying, c, cache) && V.Exists(c, id) && R.CloudOk(c, used)
    ensures Stands(s, steps, call, Delete, id, Finished(Deleted), V.Destroyed(c, id), cache - {V.Key(id)})
  {
    steps := Then(s, before, Destroy(call));
    steps := Then(s, steps, Clear(call));
    MatchesRemoved(After(s, before), After(s, steps), c, cache, id, used);
  }

  lemma AloneFailsToDestroy(s: State, before: seq<Step>, call: nat, id: string, c: V.Cloud, cache: Cache<V.Instance>)
    returns (steps: seq<Step>)
    requires Stands(s, before, call, Delete, id, Destroying, c, cache)
    ensures Stands(s, steps, call, Delete, id, Finished(Failed), c, cache)
  {
    steps := Then(s, before, DestroyFails(call));
  }

  /** What a Delete does once its Get has found the VM. */
  ghost function Outcome(c: V.Cloud, filled: Cache<V.Instance>, id: string, fails: bool): (V.DeleteReply, V.Cloud, Cache<V.Instance>) {
    if fails || !V.Exists(c, id) then (V.NotDestroyed, c, filled) else (V.Deleted, V.Destroyed(c, id), filled - {V.Key(id)})
  }

  lemma AloneDeletes(s: State, before: seq<Step>, call: nat, id: string, c: V.Cloud, filled: Cache<V.Instance>, fails: bool, used: set<string>)
    returns (steps: seq<Step>)
    requires Stands(s, before, call, Delete, id, Destroying, c, filled) && R.CloudOk(c, used)
    ensures var (r, cloud, after) := Outcome(c, filled, id, fails);
            Stands(s, steps, call, Delete, id, Finished(if r == V.Deleted then Deleted else Failed), cloud, after)
  {
    if fails || !V.Exists(c, id) {
      steps := AloneFailsToDestroy(s, before, call, id, c, filled);
    } else {
      steps := AloneDestroys(s, before, call, id, c, filled, used);
    }
  }

  /** How the method Delete goes on from its Get. */
  lemma RemovedFromGot(c: V.Cloud, cache: Cache<V.Instance>, now: int, id: string, f: V.Faults)
    ensures var (got, filled) := V.Got(c, cache, now, id, f);
            V.Removed(c, cache, now, id, f) ==
              if got.Found? then Outcome(c, filled, id, f.destroy)
              else (if got.NotFound? then V.Deleted else V.NotChecked, c, filled)
  {}

  lemma AloneStops(s: State, before: seq<Step>, call: nat, id: string, got: V.GetReply, c: V.Cloud, filled: Cache<V.Instance>)
    requires Stands(s, before, call, Delete, id, AfterReply(Delete, got), c, filled) && !got.Found?
    ensures Stands(s, before, call, Delete, id, Finished(if got.NotFound? then Deleted else Failed), c, filled)
  {}

  /** A Delete by itself replies, and leaves the cloud and the cache, as the method Delete does. */
  lemma AloneIsRemoved(s: State, call: nat, id: string, c: V.Cloud, cache: Cache<V.Instance>, f: V.Faults, used: set<string>)
    returns (steps: seq<Step>, r: V.DeleteReply, cloud: V.Cloud, after: Cache<V.Instance>)
    requires call !in s.calls && Matches(s, c, cache) && R.CloudOk(c, used)
    ensures (r, cloud, after) == V.Removed(c, cache, s.now, id, f)
    ensures Stands(s, steps, call, Delete, id, Finished(if r == V.Deleted then Deleted else Failed), cloud, after)
  {
    var (got, filled) := V.Got(c, cache, s.now, id, f);
    steps := AloneGets(s, call, Delete, id, c, cache, f, used);
    RemovedFromGot(c, cache, s.now, id, f);
    if got.Found? {
      var outcome := Outcome(c, filled, id, f.destroy);
      r, cloud, after := outcome.0, outcome.1, outcome.2;
      steps := AloneDeletes(s, steps, call, id, c, filled, f.destroy, used);
    } else {
      r, cloud, after := if got.NotFound? then V.Deleted else V.NotChecked, c, filled;
      AloneStops(s, steps, call, id, got, c, filled);
    }
  }
}
