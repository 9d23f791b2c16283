/** The instance provider's cache, which Get and Delete share without a lock.  Get looks in the
    cache, queries the API and stores what it saw; Delete runs the same Get, destroys the VM and
    then removes the cache entry.  A Get that saw the VM before the destruction may store it after
    the removal: these lemmas say how long such an entry can be served, and exactly when it arises.
    VM ids are never reused, and a successful destruction removes the VM at once. */
module InstanceCache {
  import opened Lists
  import opened TtlCache
  import V = InstanceProvider

  datatype Op = Get | Delete

  /** What the cache holds about a VM: the instance it serves, and the time of the API answer it was
      built from. */
  datatype Snapshot = Snapshot(at: int, seen: V.Instance)

  /** The record of an API answer that showed a VM; the code keeps no such record. */
  datatype Answer = Answer(id: string, snap: Snapshot)

  datatype Pc =
    | Looking
    | Querying
    | Saw(snap: Snapshot)
    | Destroying
    | Clearing
    | Finished(reply: Reply)

  datatype Reply = Found(seen: V.Instance) | NotFound | Failed | Deleted

  datatype Call = Call(op: Op, id: string, pc: Pc)

  /** The record of a cache hit; the code keeps no such record. */
  datatype Hit = Hit(id: string, snap: Snapshot, setAt: int, at: int)

  /** `vms` are the VMs that exist as the API shows them, `gone` the destroyed ones with the time of
      their destruction; `lag` is the longest time any entry so far took from API answer to cache. */
  datatype State = State(
    now: int, vms: map<string, V.Instance>, gone: map<string, int>, cache: Cache<Snapshot>,
    calls: map<nat, Call>, hits: seq<Hit>, answers: set<Answer>, lag: nat)

  datatype Step =
    | Tick(delay: nat)
    | Appear(vm: string, shown: V.Instance)
    | Alter(vm: string, shown: V.Instance)
    | Vanish(vm: string)
    | Evict(vm: string)
    | Begin(call: nat, op: Op, vm: string)
    | Look(call: nat)
    | Query(call: nat, tagsRead: bool)
    | QueryFails(call: nat)
    | Set(call: nat)
    | Destroy(call: nat)
    | DestroyFails(call: nat)
    | Clear(call: nat)

  ghost predicate Enabled(s: State, step: Step) {
    match step
    case Tick(_) => true
    case Appear(vm, _) => vm !in s.vms && vm !in s.gone
    case Alter(vm, _) => vm in s.vms
    case Vanish(vm) => vm in s.vms
    case Evict(vm) => vm in s.cache && !Live(s.cache[vm], s.now)
    case Begin(call, _, _) => call !in s.calls
    case Look(call) => call in s.calls && s.calls[call].pc.Looking?
    case Query(call, _) => call in s.calls && s.calls[call].pc.Querying?
    case QueryFails(call) => call in s.calls && s.calls[call].pc.Querying?
    case Set(call) => call in s.calls && s.calls[call].pc.Saw?
    case Destroy(call) => call in s.calls && s.calls[call].pc.Destroying? && s.calls[call].id in s.vms
    case DestroyFails(call) => call in s.calls && s.calls[call].pc.Destroying?
    case Clear(call) => call in s.calls && s.calls[call].pc.Clearing?
  }

  ghost function Move(s: State, call: nat, pc: Pc): State
    requires call in s.calls
  {
    s.(calls := s.calls[call := s.calls[call].(pc := pc)])
  }

  ghost function Remove(s: State, vm: string): State {
    s.(vms := s.vms - {vm}, gone := s.gone[vm := s.now])
  }

  /** Where a call goes once its Get has found the VM. */
  ghost function AfterGet(op: Op, seen: V.Instance): Pc {
    if op == Get then Finished(Found(seen)) else Destroying
  }

  /** What a query shows of a VM: without tags if they cannot be read. */
  ghost function SeenNow(s: State, vm: string, tagsRead: bool): Snapshot
    requires vm in s.vms
  {
    Snapshot(s.now, if tagsRead then s.vms[vm] else s.vms[vm].(tags := map[]))
  }

  ghost function Next(s: State, step: Step): State
    requires Enabled(s, step)
  {
    match step
    case Tick(delay) => s.(now := s.now + delay)
    case Appear(vm, shown) => s.(vms := s.vms[vm := shown])
    case Alter(vm, shown) => s.(vms := s.vms[vm := shown])
    case Vanish(vm) => Remove(s, vm)
    case Evict(vm) => s.(cache := s.cache - {vm})
    case Begin(call, op, vm) => s.(calls := s.calls[call := Call(op, vm, Looking)])
    case Look(call) =>
      var c := s.calls[call];
      if Lookup(s.cache, c.id, s.now).Some? then
        Move(s, call, AfterGet(c.op, s.cache[c.id].value.seen))
          .(hits := s.hits + [Hit(c.id, s.cache[c.id].value, s.cache[c.id].setAt, s.now)])
      else Move(s, call, Querying)
    case Query(call, tagsRead) =>
      var c := s.calls[call];
      if c.id in s.vms then
        Move(s, call, Saw(SeenNow(s, c.id, tagsRead))).(answers := s.answers + {Answer(c.id, SeenNow(s, c.id, tagsRead))})
      else Move(s, call, Finished(if c.op == Get then NotFound else Deleted))
    case QueryFails(call) => Move(s, call, Finished(Failed))
    case Set(call) =>
      var c := s.calls[call];
      var took := s.now - c.pc.snap.at;
      Move(s, call, AfterGet(c.op, c.pc.snap.seen))
        .(cache := s.cache[c.id := Entry(c.pc.snap, s.now)], lag := if took > s.lag then took else s.lag)
    case Destroy(call) => Remove(Move(s, call, Clearing), s.calls[call].id)
    case DestroyFails(call) => Move(s, call, Finished(Failed))
    case Clear(call) => Move(s, call, Finished(Deleted)).(cache := s.cache - {s.calls[call].id})
  }

  ghost function Start(now: int, vms: map<string, V.Instance>): State {
    State(now, vms, map[], map[], map[], [], {}, 0)
  }

  ghost predicate Runs(s: State, steps: seq<Step>)
    decreases |steps|, 0
  {
    steps != [] ==>
      Runs(s, steps[..|steps|-1]) && Enabled(After(s, steps[..|steps|-1]), steps[|steps|-1])
  }

  ghost function After(s: State, steps: seq<Step>): State
    requires Runs(s, steps)
    decreases |steps|, 1
  {
    if steps == [] then s else Next(After(s, steps[..|steps|-1]), steps[|steps|-1])
  }

  // ----- how stale a hit can be -----

  /** The API showed the VM so, and the VM was not destroyed before. */
  ghost predicate SeenAlive(s: State, vm: string, snap: Snapshot) {
    Answer(vm, snap) in s.answers && snap.at <= s.now && (vm in s.vms || (vm in s.gone && snap.at <= s.gone[vm]))
  }

  ghost predicate EntryOk(s: State, vm: string, e: Entry<Snapshot>) {
    SeenAlive(s, vm, e.value) && e.setAt <= s.now && e.setAt - e.value.at <= s.lag
  }

  ghost predicate HitOk(s: State, h: Hit) {
    SeenAlive(s, h.id, h.snap) && h.setAt - h.snap.at <= s.lag && h.at <= h.setAt + TTL
  }

  ghost predicate Inv(s: State) {
    && (forall vm | vm in s.gone :: vm !in s.vms && s.gone[vm] <= s.now)
    && (forall vm | vm in s.cache :: EntryOk(s, vm, s.cache[vm]))
    && (forall c | c in s.calls && s.calls[c].pc.Saw? :: SeenAlive(s, s.calls[c].id, s.calls[c].pc.snap))
    && (forall c | c in s.calls && s.calls[c].pc.Clearing? :: s.calls[c].id in s.gone)
    && (forall i | 0 <= i < |s.hits| :: HitOk(s, s.hits[i]))
  }

  /** A VM that was seen alive stays seen alive. */
  lemma SeenStays(s: State, step: Step, vm: string, snap: Snapshot)
    requires Enabled(s, step) && SeenAlive(s, vm, snap)
    requires vm in s.gone ==> vm !in s.vms
    ensures SeenAlive(Next(s, step), vm, snap)
  {}

  lemma CacheNext(s: State, step: Step)
    requires Inv(s) && Enabled(s, step)
    ensures forall vm | vm in Next(s, step).cache :: EntryOk(Next(s, step), vm, Next(s, step).cache[vm])
  {
    var s' := Next(s, step);
    forall vm | vm in s'.cache ensures EntryOk(s', vm, s'.cache[vm]) {
      if vm in s.cache {
        assert EntryOk(s, vm, s.cache[vm]);
        SeenStays(s, step, vm, s.cache[vm].value);
      }
    }
  }

  lemma HitsNext(s: State, step: Step)
    requires Inv(s) && Enabled(s, step)
    ensures forall i | 0 <= i < |Next(s, step).hits| :: HitOk(Next(s, step), Next(s, step).hits[i])
  {
    var s' := Next(s, step);
    forall i | 0 <= i < |s'.hits| ensures HitOk(s', s'.hits[i]) {
      if i < |s.hits| {
        assert HitOk(s, s.hits[i]);
        SeenStays(s, step, s.hits[i].id, s.hits[i].snap);
      }
    }
  }

  lemma CallsNext(s: State, step: Step)
    requires Inv(s) && Enabled(s, step)
    ensures var s' := Next(s, step);
            forall c | c in s'.calls && s'.calls[c].pc.Saw? :: SeenAlive(s', s'.calls[c].id, s'.calls[c].pc.snap)
  {
    var s' := Next(s, step);
    forall c | c in s'.calls && s'.calls[c].pc.Saw? ensures SeenAlive(s', s'.calls[c].id, s'.calls[c].pc.snap) {
      if c in s.calls && s.calls[c].pc.Saw? {
        SeenStays(s, step, s.calls[c].id, s.calls[c].pc.snap);
      }
    }
  }

  lemma InvNext(s: State, step: Step)
    requires Inv(s) && Enabled(s, step)
    ensures Inv(Next(s, step))
  {
    CacheNext(s, step);
    HitsNext(s, step);
    CallsNext(s, step);
  }

  lemma {:induction false} InvAlways(now: int, vms: map<string, V.Instance>, steps: seq<Step>)
    requires Runs(Start(now, vms), steps)
    ensures Inv(After(Start(now, vms), steps))
  {
    if steps != [] {
      InvAlways(now, vms, steps[..|steps|-1]);
      InvNext(After(Start(now, vms), steps[..|steps|-1]), steps[|steps|-1]);
    }
  }

  /** In every interleaving, what the cache serves is an answer that the API gave, and a destroyed VM is
      served only within one TTL, and the longest time from API answer to cache, of its destruction. */
  lemma StaleHitsAreBounded(now: int, vms: map<string, V.Instance>, steps: seq<Step>, h: Hit)
    requires Runs(Start(now, vms), steps)
    requires h in After(Start(now, vms), steps).hits
    ensures var s := After(Start(now, vms), steps);
            Answer(h.id, h.snap) in s.answers && (h.id in s.gone ==> h.at <= s.gone[h.id] + TTL + s.lag)
  {
    InvAlways(now, vms, steps);
    var s := After(Start(now, vms), steps);
    var i :| 0 <= i < |s.hits| && s.hits[i] == h;
    assert HitOk(s, s.hits[i]);
  }

  // ----- the bound is reached, after a Delete that has returned -----

  lemma Then(s: State, steps: seq<Step>, step: Step) returns (more: seq<Step>)
    requires Runs(s, steps) && Enabled(After(s, steps), step)
    ensures more == steps + [step] && Runs(s, more) && After(s, more) == Next(After(s, steps), step)
  {
    more := steps + [step];
    assert more[..|steps|] == steps;
  }

  /** Two calls about one VM: a Get and a Delete. */
  ghost function GetAndDelete(vm: string, get: Pc, delete: Pc): map<nat, Call> {
    map[0 := Call(Get, vm, get), 1 := Call(Delete, vm, delete)]
  }

  lemma OneMoves(vm: string, get: Pc, delete: Pc, pc: Pc)
    ensures GetAndDelete(vm, get, delete)[0 := Call(Get, vm, pc)] == GetAndDelete(vm, pc, delete)
    ensures GetAndDelete(vm, get, delete)[1 := Call(Delete, vm, pc)] == GetAndDelete(vm, get, pc)
  {}

  lemma GetSees(now: int, vm: string, shown: V.Instance) returns (steps: seq<Step>)
    ensures Runs(Start(now, map[vm := shown]), steps)
    ensures After(Start(now, map[vm := shown]), steps) ==
            State(now, map[vm := shown], map[], map[], map[0 := Call(Get, vm, Saw(Snapshot(now, shown)))], [],
                  {Answer(vm, Snapshot(now, shown))}, 0)
  {
    var s0 := Start(now, map[vm := shown]);
    steps := Then(s0, [], Begin(0, Get, vm));
    steps := Then(s0, steps, Look(0));
    steps := Then(s0, steps, Query(0, true));
  }

  /** A Get and a Delete have both seen the VM, and neither has stored it. */
  lemma BothSee(now: int, vm: string, shown: V.Instance) returns (steps: seq<Step>)
    ensures Runs(Start(now, map[vm := shown]), steps)
    ensures After(Start(now, map[vm := shown]), steps) == State(now, map[vm := shown], map[], map[], GetAndDelete(vm, Saw(Snapshot(now, shown)), Saw(Snapshot(now, shown))), [], {Answer(vm, Snapshot(now, shown))}, 0)
  {
    var s0 := Start(now, map[vm := shown]);
    var seen := Snapshot(now, shown);
    steps := GetSees(now, vm, shown);
    steps := Then(s0, steps, Begin(1, Delete, vm));
    assert map[0 := Call(Get, vm, Saw(seen))][1 := Call(Delete, vm, Looking)] == GetAndDelete(vm, Saw(seen), Looking);
    assert After(s0, steps) == State(now, map[vm := shown], map[], map[], GetAndDelete(vm, Saw(seen), Looking), [], {Answer(vm, seen)}, 0);
    steps := Then(s0, steps, Look(1));
    OneMoves(vm, Saw(seen), Looking, Querying);
    assert After(s0, steps) == State(now, map[vm := shown], map[], map[], GetAndDelete(vm, Saw(seen), Querying), [], {Answer(vm, seen)}, 0);
    steps := Then(s0, steps, Query(1, true));
    OneMoves(vm, Saw(seen), Querying, Saw(seen));
    assert {Answer(vm, seen)} + {Answer(vm, seen)} == {Answer(vm, seen)};
  }

  lemma DeleteDestroys(now: int, vm: string, shown: V.Instance) returns (steps: seq<Step>)
    ensures Runs(Start(now, map[vm := shown]), steps)
    ensures After(Start(now, map[vm := shown]), steps) ==
            State(now, map[], map[vm := now], map[vm := Entry(Snapshot(now, shown), now)], GetAndDelete(vm, Saw(Snapshot(now, shown)), Clearing), [], {Answer(vm, Snapshot(now, shown))}, 0)
  {
    var s0 := Start(now, map[vm := shown]);
    steps := BothSee(now, vm, shown);
    steps := Then(s0, steps, Set(1));
    OneMoves(vm, Saw(Snapshot(now, shown)), Saw(Snapshot(now, shown)), Destroying);
    assert After(s0, steps) == State(now, map[vm := shown], map[], map[vm := Entry(Snapshot(now, shown), now)], GetAndDelete(vm, Saw(Snapshot(now, shown)), Destroying), [], {Answer(vm, Snapshot(now, shown))}, 0);
    steps := Then(s0, steps, Destroy(1));
    OneMoves(vm, Saw(Snapshot(now, shown)), Destroying, Clearing);
  }

  /** The Delete has destroyed the VM and returned, and the Get has still to store it. */
  lemma DeleteOvertakesGet(now: int, vm: string, shown: V.Instance) returns (steps: seq<Step>)
    ensures Runs(Start(now, map[vm := shown]), steps)
    ensures After(Start(now, map[vm := shown]), steps) ==
            State(now, map[], map[vm := now], map[], GetAndDelete(vm, Saw(Snapshot(now, shown)), Finished(Deleted)), [], {Answer(vm, Snapshot(now, shown))}, 0)
  {
    steps := DeleteDestroys(now, vm, shown);
    steps := Then(Start(now, map[vm := shown]), steps, Clear(1));
    OneMoves(vm, Saw(Snapshot(now, shown)), Clearing, Finished(Deleted));
  }

  /** The Get stores what it saw, `lag` later. */
  lemma GetStoresLate(now: int, vm: string, shown: V.Instance, lag: nat) returns (steps: seq<Step>)
    ensures Runs(Start(now, map[vm := shown]), steps)
    ensures After(Start(now, map[vm := shown]), steps) ==
            State(now + lag, map[], map[vm := now], map[vm := Entry(Snapshot(now, shown), now + lag)],
                  GetAndDelete(vm, Finished(Found(shown)), Finished(Deleted)), [], {Answer(vm, Snapshot(now, shown))}, lag)
  {
    var s0 := Start(now, map[vm := shown]);
    steps := DeleteOvertakesGet(now, vm, shown);
    steps := Then(s0, steps, Tick(lag));
    assert After(s0, steps) == State(now + lag, map[], map[vm := now], map[], GetAndDelete(vm, Saw(Snapshot(now, shown)), Finished(Deleted)), [], {Answer(vm, Snapshot(now, shown))}, 0);
    steps := Then(s0, steps, Set(0));
    OneMoves(vm, Saw(Snapshot(now, shown)), Finished(Deleted), Finished(Found(shown)));
  }

  /** A new Get is served where the cache has a live entry. */
  lemma GetIsServed(s0: State, before: seq<Step>, call: nat, vm: string) returns (steps: seq<Step>)
    requires Runs(s0, before) && call !in After(s0, before).calls
    requires Lookup(After(s0, before).cache, vm, After(s0, before).now).Some?
    ensures Runs(s0, steps)
    ensures var s := After(s0, before);
            After(s0, steps) == s.(calls := s.calls[call := Call(Get, vm, Finished(Found(s.cache[vm].value.seen)))],
                                   hits := s.hits + [Hit(vm, s.cache[vm].value, s.cache[vm].setAt, s.now)])
  {
    var s := After(s0, before);
    steps := Then(s0, before, Begin(call, Get, vm));
    steps := Then(s0, steps, Look(call));
    assert s.calls[call := Call(Get, vm, Looking)][call := Call(Get, vm, Finished(Found(s.cache[vm].value.seen)))] == s.calls[call := Call(Get, vm, Finished(Found(s.cache[vm].value.seen)))];
  }

  /** For every VM and every lag there is a run in which a Delete has succeeded and a Get started later
      is served the VM at the very end of the allowed time. */
  lemma TheBoundIsReached(now: int, vm: string, shown: V.Instance, lag: nat) returns (steps: seq<Step>)
    ensures Runs(Start(now, map[vm := shown]), steps)
    ensures var s := After(Start(now, map[vm := shown]), steps);
            && s.lag == lag && vm in s.gone
            && 1 in s.calls && s.calls[1] == Call(Delete, vm, Finished(Deleted))
            && 2 in s.calls && s.calls[2] == Call(Get, vm, Finished(Found(shown)))
            && s.hits == [Hit(vm, Snapshot(now, shown), now + lag, s.gone[vm] + TTL + lag)]
  {
    var s0 := Start(now, map[vm := shown]);
    steps := GetStoresLate(now, vm, shown, lag);
    steps := Then(s0, steps, Tick(TTL));
    steps := GetIsServed(s0, steps, 2, vm);
  }

  // ----- exactly when a finished Delete can be undone in the cache -----

  /** Some call has seen the VM and has yet to store it. */
  ghost predicate InFlight(s: State, vm: string) {
    exists c | c in s.calls :: s.calls[c].pc.Saw? && s.calls[c].id == vm
  }

  /** From `s` some run serves the VM from the cache once more. */
  ghost predicate CanBeServed(s: State, vm: string) {
    exists steps :: Serves(s, steps, vm)
  }

  ghost predicate Serves(s: State, steps: seq<Step>, vm: string) {
    Runs(s, steps) && HitsOf(After(s, steps).hits, vm) > HitsOf(s.hits, vm)
  }

  ghost function HitsOf(hits: seq<Hit>, vm: string): nat {
    if hits == [] then 0 else HitsOf(hits[..|hits|-1], vm) + if hits[|hits|-1].id == vm then 1 else 0
  }

  /** Nothing in the state can bring the VM back into the cache. */
  ghost predicate Forgotten(s: State, vm: string) {
    vm !in s.vms && vm in s.gone && vm !in s.cache && !InFlight(s, vm)
  }

  lemma {:induction false} ForgottenStays(s: State, steps: seq<Step>, vm: string)
    requires Runs(s, steps) && Forgotten(s, vm)
    ensures Forgotten(After(s, steps), vm) && HitsOf(After(s, steps).hits, vm) == HitsOf(s.hits, vm)
  {
    if steps != [] {
      var before := After(s, steps[..|steps|-1]);
      ForgottenStays(s, steps[..|steps|-1], vm);
      ForgottenNext(before, steps[|steps|-1], vm);
    }
  }

  lemma ForgottenNext(s: State, step: Step, vm: string)
    requires Enabled(s, step) && Forgotten(s, vm)
    ensures Forgotten(Next(s, step), vm) && HitsOf(Next(s, step).hits, vm) == HitsOf(s.hits, vm)
  {
    NotInFlightNext(s, step, vm);
    NotServedNext(s, step, vm);
    NotStoredNext(s, step, vm);
  }

  /** Only a call that sees the VM can have it in flight. */
  lemma NotInFlightNext(s: State, step: Step, vm: string)
    requires Enabled(s, step) && vm !in s.vms && !InFlight(s, vm)
    ensures !InFlight(Next(s, step), vm)
  {
    var s' := Next(s, step);
    forall c | c in s'.calls ensures !(s'.calls[c].pc.Saw? && s'.calls[c].id == vm) {
      if c in s.calls && s'.calls[c] == s.calls[c] {
        assert !(s.calls[c].pc.Saw? && s.calls[c].id == vm);
      }
    }
  }

  /** Only a VM in flight gets into the cache. */
  lemma NotStoredNext(s: State, step: Step, vm: string)
    requires Enabled(s, step) && vm !in s.cache && !InFlight(s, vm)
    ensures vm !in Next(s, step).cache
  {
    if step.Set? {
      assert step.call in s.calls;
      assert s.calls[step.call].pc.Saw?;
    }
  }

  /** Only a VM in the cache is served. */
  lemma NotServedNext(s: State, step: Step, vm: string)
    requires Enabled(s, step) && vm !in s.cache
    ensures HitsOf(Next(s, step).hits, vm) == HitsOf(s.hits, vm)
  {
    if step.Look? {
      var c := s.calls[step.call];
      if Lookup(s.cache, c.id, s.now).Some? {
        HitsSnoc(s.hits, Hit(c.id, s.cache[c.id].value, s.cache[c.id].setAt, s.now), vm);
      }
    }
  }

  lemma HitsSnoc(hits: seq<Hit>, h: Hit, vm: string)
    ensures HitsOf(hits + [h], vm) == HitsOf(hits, vm) + if h.id == vm then 1 else 0
  {
    assert (hits + [h])[..|hits|] == hits;
  }

  lemma Unused(calls: map<nat, Call>) returns (unused: nat)
    ensures unused !in calls
  {
    unused := UnusedBy(calls.Keys);
  }

  lemma {:induction false} UnusedBy(used: set<nat>) returns (unused: nat)
    ensures unused !in used && forall n | n in used :: n < unused
    decreases used
  {
    if used == {} {
      unused := 0;
    } else {
      var n :| n in used;
      assert used == (used - {n}) + {n};
      unused := UnusedBy(used - {n});
      if unused <= n {
        unused := n + 1;
      }
    }
  }

  /** When a Delete clears the cache entry of the VM it destroyed, the VM can be served from the
      cache ever again exactly when another call that saw it has yet to store it. */
  lemma DeleteIsFinalIff(now: int, vms: map<string, V.Instance>, steps: seq<Step>, call: nat)
    requires Runs(Start(now, vms), steps)
    requires Enabled(After(Start(now, vms), steps), Clear(call))
    ensures var s := After(Start(now, vms), steps);
            var vm := s.calls[call].id;
            CanBeServed(Next(s, Clear(call)), vm) <==> InFlight(s, vm)
  {
    var s := After(Start(now, vms), steps);
    InvAlways(now, vms, steps);
    var vm := s.calls[call].id;
    var s' := Next(s, Clear(call));
    assert InFlight(s', vm) <==> InFlight(s, vm) by {
      if InFlight(s', vm) {
        var c :| c in s'.calls && s'.calls[c].pc.Saw? && s'.calls[c].id == vm;
        assert s.calls[c] == s'.calls[c];
      }
      if InFlight(s, vm) {
        var c :| c in s.calls && s.calls[c].pc.Saw? && s.calls[c].id == vm;
        assert s'.calls[c] == s.calls[c];
      }
    }
    if InFlight(s', vm) {
      var c :| c in s'.calls && s'.calls[c].pc.Saw? && s'.calls[c].id == vm;
      var unused := Unused(s'.calls);
      var more := Then(s', [], Set(c));
      more := GetIsServed(s', more, unused, vm);
      HitsSnoc(s'.hits, After(s', more).hits[|s'.hits|], vm);
      assert Serves(s', more, vm);
    } else {
      forall more | Runs(s', more) ensures !Serves(s', more, vm) {
        ForgottenStays(s', more, vm);
      }
    }
  }
}
