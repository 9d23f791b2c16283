/** The protocol by which List of the network, template and zone providers and
    resolveServiceOfferings share an expiring cache: look without the lock, lock, look again, ask
    the API, store, unlock.  A fetch may take several API calls, and its answer is built from what
    they heard.  A state is one provider with its cache and mutex, any number of calls in progress,
    the clock and the world the API reports on; a run interleaves the steps of the calls with the
    passing of time, changes of the world and the eviction of expired entries. */
module ListCache {
  import opened Lists
  import opened TtlCache

  /** One API call of a fetch: what was asked, what was answered, if anything, and when. */
  datatype Heard<K, +A> = Heard(ask: K, answer: Option<A>, at: int)

  /** What the code does with API answers: `build` makes a listing of what a fetch for a cache key
      has heard, once that is enough, and `view` is what a caller makes of a listing. */
  datatype Code<!K, !A, !V, !Q, !R> = Code(build: (string, seq<Heard<K, A>>) -> Option<V>, view: (V, Q) -> R)

  /** Where a call stands.  From Rechecking to Releasing it holds the mutex. */
  datatype Pc<K, +A, +V, +R> =
    | Peeking
    | Waiting
    | Rechecking
    | Fetching(start: int, heard: seq<Heard<K, A>>)
    | Releasing(reply: Reply<V, R>)
    | Returned(reply: Reply<V, R>)

  /** What a call returns: an error, or the caller's view of the listing `value` obtained at `at`. */
  datatype Reply<+V, +R> = Failed | Got(result: R, value: V, at: int)

  datatype Call<K, +A, +V, Q, +R> = Call(key: string, query: Q, pc: Pc<K, A, V, R>)

  /** The record of a fetch whose answer was stored: begun at `start`, built from what it heard,
      stored at `at`.  The code keeps no such record. */
  datatype Fetch<K, +A, +V> = Fetch(key: string, value: V, start: int, heard: seq<Heard<K, A>>, at: int)

  /** The world as it was from `since` on.  What is missing makes a call fail. */
  datatype Epoch<!K, +A> = Epoch(since: int, world: imap<K, A>)

  datatype State<!K, A, V, Q, R> = State(
    now: int, past: seq<Epoch<K, A>>, cache: Cache<V>, holder: Option<nat>,
    calls: map<nat, Call<K, A, V, Q, R>>, fetches: seq<Fetch<K, A, V>>)

  datatype Step<!K, A, Q> =
    | Tick(delay: nat)
    | Change(world: imap<K, A>)
    | Evict(key: string)
    | Begin(id: nat, key: string, query: Q)
    | Peek(id: nat)
    | Lock(id: nat)
    | Recheck(id: nat)
    | Ask(id: nat, ask: K)
    | AskFails(id: nat, ask: K)
    | GiveUp(id: nat)
    | Store(id: nat)
    | Unlock(id: nat)

  ghost function World<K, A, V, Q, R>(s: State<K, A, V, Q, R>): imap<K, A>
    requires s.past != []
  {
    s.past[|s.past|-1].world
  }

  ghost predicate Enabled<K, A, V, Q, R>(code: Code<K, A, V, Q, R>, s: State<K, A, V, Q, R>, step: Step<K, A, Q>) {
    match step
    case Tick(_) => true
    case Change(_) => true
    case Evict(key) => key in s.cache && !Live(s.cache[key], s.now)
    case Begin(id, _, _) => id !in s.calls
    case Peek(id) => id in s.calls && s.calls[id].pc.Peeking?
    case Lock(id) => id in s.calls && s.calls[id].pc.Waiting? && s.holder.None?
    case Recheck(id) => id in s.calls && s.calls[id].pc.Rechecking?
    case Ask(id, _) => id in s.calls && s.calls[id].pc.Fetching? && s.past != []
    case AskFails(id, _) => id in s.calls && s.calls[id].pc.Fetching?
    case GiveUp(id) => id in s.calls && s.calls[id].pc.Fetching?
    case Store(id) =>
      id in s.calls && s.calls[id].pc.Fetching? && code.build(s.calls[id].key, s.calls[id].pc.heard).Some?
    case Unlock(id) => id in s.calls && s.calls[id].pc.Releasing?
  }

  ghost function Move<K, A, V, Q, R>(s: State<K, A, V, Q, R>, id: nat, pc: Pc<K, A, V, R>): State<K, A, V, Q, R>
    requires id in s.calls
  {
    s.(calls := s.calls[id := s.calls[id].(pc := pc)])
  }

  /** The reply of a call that finds a live entry, if there is one. */
  ghost function Hit<K, A, V, Q, R>(code: Code<K, A, V, Q, R>, s: State<K, A, V, Q, R>, id: nat): Option<Reply<V, R>>
    requires id in s.calls
  {
    var found := Lookup(s.cache, s.calls[id].key, s.now);
    if found.None? then None else Some(Got(code.view(found.value, s.calls[id].query), found.value, s.now))
  }

  ghost function Hears<K, A, V, R>(pc: Pc<K, A, V, R>, h: Heard<K, A>): Pc<K, A, V, R>
    requires pc.Fetching?
  {
    pc.(heard := pc.heard + [h])
  }

  /** The fetch of a call whose listing is complete. */
  ghost function Stored<K, A, V, Q, R>(code: Code<K, A, V, Q, R>, c: Call<K, A, V, Q, R>, now: int): Fetch<K, A, V>
    requires c.pc.Fetching? && code.build(c.key, c.pc.heard).Some?
  {
    Fetch(c.key, code.build(c.key, c.pc.heard).value, c.pc.start, c.pc.heard, now)
  }

  ghost function Next<K, A, V, Q, R>(code: Code<K, A, V, Q, R>, s: State<K, A, V, Q, R>, step: Step<K, A, Q>): State<K, A, V, Q, R>
    requires Enabled(code, s, step)
  {
    match step
    case Tick(delay) => s.(now := s.now + delay)
    case Change(world) => s.(past := s.past + [Epoch(s.now, world)])
    case Evict(key) => s.(cache := s.cache - {key})
    case Begin(id, key, query) => s.(calls := s.calls[id := Call(key, query, Peeking)])
    case Peek(id) =>
      var hit := Hit(code, s, id);
      Move(s, id, if hit.Some? then Returned(hit.value) else Waiting)
    case Lock(id) => Move(s, id, Rechecking).(holder := Some(id))
    case Recheck(id) =>
      var hit := Hit(code, s, id);
      Move(s, id, if hit.Some? then Releasing(hit.value) else Fetching(s.now, []))
    case Ask(id, ask) =>
      Move(s, id, Hears(s.calls[id].pc, Heard(ask, if ask in World(s) then Some(World(s)[ask]) else None, s.now)))
    case AskFails(id, ask) => Move(s, id, Hears(s.calls[id].pc, Heard(ask, None, s.now)))
    case GiveUp(id) => Move(s, id, Releasing(Failed))
    case Store(id) =>
      var c := s.calls[id];
      var f := Stored(code, c, s.now);
      Move(s, id, Releasing(Got(code.view(f.value, c.query), f.value, s.now)))
        .(cache := s.cache[c.key := Entry(f.value, s.now)], fetches := s.fetches + [f])
    case Unlock(id) => Move(s, id, Returned(s.calls[id].pc.reply)).(holder := None)
  }

  ghost function Start<K, A, V, Q, R>(now: int, world: imap<K, A>): State<K, A, V, Q, R> {
    State(now, [Epoch(now, world)], map[], None, map[], [])
  }

  /** The steps can be taken one after the other. */
  ghost predicate Runs<K, A, V, Q, R>(code: Code<K, A, V, Q, R>, s: State<K, A, V, Q, R>, steps: seq<Step<K, A, Q>>)
    decreases |steps|, 0
  {
    steps != [] ==>
      && Runs(code, s, steps[..|steps|-1])
      && Enabled(code, After(code, s, steps[..|steps|-1]), steps[|steps|-1])
  }

  ghost function After<K, A, V, Q, R>(code: Code<K, A, V, Q, R>, s: State<K, A, V, Q, R>, steps: seq<Step<K, A, Q>>): State<K, A, V, Q, R>
    requires Runs(code, s, steps)
    decreases |steps|, 1
  {
    if steps == [] then s
    else Next(code, After(code, s, steps[..|steps|-1]), steps[|steps|-1])
  }

  // ----- the invariant -----

  /** The API would have given this answer at time `t`. */
  ghost predicate HeldAt<K, A>(past: seq<Epoch<K, A>>, t: int, ask: K, answer: A) {
    exists i: nat :: HeldIn(past, i, t, ask, answer)
  }

  ghost predicate HeldIn<K, A>(past: seq<Epoch<K, A>>, i: nat, t: int, ask: K, answer: A) {
    && i < |past|
    && past[i].since <= t && (i + 1 < |past| ==> t <= past[i + 1].since)
    && ask in past[i].world && past[i].world[ask] == answer
  }

  /** Every call took place between `from` and `to`, and its answer, if any, held at that moment. */
  ghost predicate HeardOk<K, A>(past: seq<Epoch<K, A>>, heard: seq<Heard<K, A>>, from: int, to: int) {
    forall i | 0 <= i < |heard| :: PieceOk(past, heard[i], from, to)
  }

  ghost predicate PieceOk<K, A>(past: seq<Epoch<K, A>>, h: Heard<K, A>, from: int, to: int) {
    from <= h.at <= to && (h.answer.Some? ==> HeldAt(past, h.at, h.ask, h.answer.value))
  }

  /** The call holds the mutex. */
  ghost predicate InSection<K, A, V, R>(pc: Pc<K, A, V, R>) {
    pc.Rechecking? || pc.Fetching? || pc.Releasing?
  }

  ghost predicate LockInv<K, A, V, Q, R>(s: State<K, A, V, Q, R>) {
    && (s.holder.Some? ==> s.holder.value in s.calls)
    && forall id | id in s.calls :: InSection(s.calls[id].pc) <==> s.holder == Some(id)
  }

  ghost predicate ClockInv<K, A, V, Q, R>(s: State<K, A, V, Q, R>) {
    s.past != [] && s.past[|s.past|-1].since <= s.now
  }

  ghost predicate FetchOk<K, A, V, Q, R>(code: Code<K, A, V, Q, R>, f: Fetch<K, A, V>, past: seq<Epoch<K, A>>, now: int) {
    f.start <= f.at <= now && code.build(f.key, f.heard) == Some(f.value) && HeardOk(past, f.heard, f.start, f.at)
  }

  /** Fetches stored under one key lie more than a TTL apart. */
  ghost predicate Spaced<K, A, V>(fetches: seq<Fetch<K, A, V>>) {
    forall i, j | 0 <= i < j < |fetches| && fetches[i].key == fetches[j].key :: fetches[i].at + TTL < fetches[j].at
  }

  /** Every fetch under `key` has expired by time `t`. */
  ghost predicate AllExpired<K, A, V>(fetches: seq<Fetch<K, A, V>>, key: string, t: int) {
    forall i | 0 <= i < |fetches| && fetches[i].key == key :: fetches[i].at + TTL < t
  }

  ghost predicate Origin<K, A, V>(fetches: seq<Fetch<K, A, V>>, i: nat, key: string, value: V, at: int) {
    i < |fetches| && fetches[i].key == key && fetches[i].value == value && fetches[i].at == at
  }

  /** The cache holds the latest fetch of a key, unless all of them have expired. */
  ghost predicate Covered<K, A, V>(f: Fetch<K, A, V>, cache: Cache<V>, now: int) {
    if f.key in cache then f.at <= cache[f.key].setAt else f.at + TTL < now
  }

  ghost predicate FetchesInv<K, A, V, Q, R>(code: Code<K, A, V, Q, R>, s: State<K, A, V, Q, R>) {
    forall i | 0 <= i < |s.fetches| :: FetchOk(code, s.fetches[i], s.past, s.now) && Covered(s.fetches[i], s.cache, s.now)
  }

  /** Every entry was stored by some fetch. */
  ghost predicate OriginInv<K, A, V, Q, R>(s: State<K, A, V, Q, R>) {
    forall k | k in s.cache :: exists i: nat :: Origin(s.fetches, i, k, s.cache[k].value, s.cache[k].setAt)
  }

  ghost predicate CacheInv<K, A, V, Q, R>(code: Code<K, A, V, Q, R>, s: State<K, A, V, Q, R>) {
    Spaced(s.fetches) && FetchesInv(code, s) && OriginInv(s)
  }

  /** A reply views, by the caller's own query, a stored fetch of the caller's key that has not expired. */
  ghost predicate ReplyOk<K, A, V, Q, R>(code: Code<K, A, V, Q, R>, fetches: seq<Fetch<K, A, V>>, now: int, key: string, query: Q, reply: Reply<V, R>) {
    reply.Got? ==>
      && reply.result == code.view(reply.value, query)
      && reply.at <= now
      && exists i: nat, at :: Origin(fetches, i, key, reply.value, at) && at <= reply.at <= at + TTL
  }

  ghost predicate CallOk<K, A, V, Q, R>(code: Code<K, A, V, Q, R>, s: State<K, A, V, Q, R>, c: Call<K, A, V, Q, R>) {
    match c.pc
    case Fetching(start, heard) => start <= s.now && AllExpired(s.fetches, c.key, start) && HeardOk(s.past, heard, start, s.now)
    case Releasing(reply) => ReplyOk(code, s.fetches, s.now, c.key, c.query, reply)
    case Returned(reply) => ReplyOk(code, s.fetches, s.now, c.key, c.query, reply)
    case _ => true
  }

  ghost predicate Inv<K, A, V, Q, R>(code: Code<K, A, V, Q, R>, s: State<K, A, V, Q, R>) {
    LockInv(s) && ClockInv(s) && CacheInv(code, s) && forall id | id in s.calls :: CallOk(code, s, s.calls[id])
  }

  ghost predicate HeldBetween<K, A>(past: seq<Epoch<K, A>>, from: int, to: int, ask: K, answer: A) {
    exists t | from <= t <= to :: HeldAt(past, t, ask, answer)
  }

  lemma PieceHeld<K, A>(past: seq<Epoch<K, A>>, heard: seq<Heard<K, A>>, i: nat, from: int, to: int)
    requires HeardOk(past, heard, from, to) && i < |heard| && heard[i].answer.Some?
    ensures HeldBetween(past, from, to, heard[i].ask, heard[i].answer.value)
  {
    assert PieceOk(past, heard[i], from, to);
  }

  lemma HeardOkGrows<K, A>(past: seq<Epoch<K, A>>, heard: seq<Heard<K, A>>, from: int, to: int, epoch: Epoch<K, A>)
    requires HeardOk(past, heard, from, to) && to <= epoch.since
    ensures HeardOk(past + [epoch], heard, from, to)
  {
    forall k | 0 <= k < |heard| ensures PieceOk(past + [epoch], heard[k], from, to) {
      var h := heard[k];
      assert PieceOk(past, h, from, to);
      if h.answer.Some? {
        var i: nat :| HeldIn(past, i, h.at, h.ask, h.answer.value);
        assert HeldIn(past + [epoch], i, h.at, h.ask, h.answer.value);
      }
    }
  }

  lemma HeardOkTail<K, A>(past: seq<Epoch<K, A>>, heard: seq<Heard<K, A>>, n: nat, from: int, to: int)
    requires HeardOk(past, heard, from, to) && n <= |heard|
    ensures HeardOk(past, heard[n..], from, to)
  {
    forall k | 0 <= k < |heard[n..]| ensures PieceOk(past, heard[n..][k], from, to) {
      assert PieceOk(past, heard[n + k], from, to);
    }
  }

  lemma HeardOkLater<K, A>(past: seq<Epoch<K, A>>, heard: seq<Heard<K, A>>, from: int, to: int, later: int)
    requires HeardOk(past, heard, from, to) && to <= later
    ensures HeardOk(past, heard, from, later)
  {
    forall k | 0 <= k < |heard| ensures PieceOk(past, heard[k], from, later) {
      assert PieceOk(past, heard[k], from, to);
    }
  }

  lemma HeardOkSnoc<K, A>(past: seq<Epoch<K, A>>, heard: seq<Heard<K, A>>, h: Heard<K, A>, from: int, to: int)
    requires HeardOk(past, heard, from, to) && PieceOk(past, h, from, to)
    ensures HeardOk(past, heard + [h], from, to)
  {
    forall k | 0 <= k < |heard + [h]| ensures PieceOk(past, (heard + [h])[k], from, to) {
      assert k < |heard| ==> PieceOk(past, heard[k], from, to);
    }
  }

  lemma HeldNow<K, A, V, Q, R>(s: State<K, A, V, Q, R>, ask: K)
    requires ClockInv(s) && ask in World(s)
    ensures HeldAt(s.past, s.now, ask, World(s)[ask])
  {
    assert HeldIn(s.past, |s.past| - 1, s.now, ask, World(s)[ask]);
  }

  lemma ReplyOkGrows<K, A, V, Q, R>(code: Code<K, A, V, Q, R>, s: State<K, A, V, Q, R>, c: Call<K, A, V, Q, R>, reply: Reply<V, R>, now: int, f: Fetch<K, A, V>)
    requires ReplyOk(code, s.fetches, s.now, c.key, c.query, reply) && s.now <= now
    ensures ReplyOk(code, s.fetches, now, c.key, c.query, reply)
    ensures ReplyOk(code, s.fetches + [f], now, c.key, c.query, reply)
  {
    if reply.Got? {
      var i: nat, at :| Origin(s.fetches, i, c.key, reply.value, at) && at <= reply.at <= at + TTL;
      assert Origin(s.fetches + [f], i, c.key, reply.value, at);
    }
  }

  lemma HitOk<K, A, V, Q, R>(code: Code<K, A, V, Q, R>, s: State<K, A, V, Q, R>, id: nat)
    requires Inv(code, s) && id in s.calls && Hit(code, s, id).Some?
    ensures ReplyOk(code, s.fetches, s.now, s.calls[id].key, s.calls[id].query, Hit(code, s, id).value)
  {
    var k := s.calls[id].key;
    var i: nat :| Origin(s.fetches, i, k, s.cache[k].value, s.cache[k].setAt);
    assert FetchOk(code, s.fetches[i], s.past, s.now);
  }

  /** A miss under the lock means that every stored fetch of the key has expired: what the second
      look is for. */
  lemma MissMeansExpired<K, A, V, Q, R>(code: Code<K, A, V, Q, R>, s: State<K, A, V, Q, R>, id: nat)
    requires CacheInv(code, s) && id in s.calls && Hit(code, s, id).None?
    ensures AllExpired(s.fetches, s.calls[id].key, s.now)
  {}

  lemma InvTick<K, A, V, Q, R>(code: Code<K, A, V, Q, R>, s: State<K, A, V, Q, R>, delay: nat)
    requires Inv(code, s)
    ensures Inv(code, s.(now := s.now + delay))
  {
    var s' := s.(now := s.now + delay);
    forall id | id in s'.calls ensures CallOk(code, s', s'.calls[id]) {
      var c := s.calls[id];
      assert CallOk(code, s, c);
      if c.pc.Fetching? {
        HeardOkLater(s.past, c.pc.heard, c.pc.start, s.now, s.now + delay);
      }
    }
    assert forall i | 0 <= i < |s.fetches| :: FetchOk(code, s.fetches[i], s.past, s.now);
  }

  lemma InvChange<K, A, V, Q, R>(code: Code<K, A, V, Q, R>, s: State<K, A, V, Q, R>, world: imap<K, A>)
    requires Inv(code, s)
    ensures Inv(code, s.(past := s.past + [Epoch(s.now, world)]))
  {
    var e := Epoch(s.now, world);
    var s' := s.(past := s.past + [e]);
    forall i | 0 <= i < |s.fetches| ensures FetchOk(code, s.fetches[i], s'.past, s.now) {
      var f := s.fetches[i];
      assert FetchOk(code, f, s.past, s.now);
      HeardOkGrows(s.past, f.heard, f.start, f.at, e);
    }
    forall id | id in s'.calls ensures CallOk(code, s', s'.calls[id]) {
      var c := s.calls[id];
      assert CallOk(code, s, c);
      if c.pc.Fetching? {
        HeardOkGrows(s.past, c.pc.heard, c.pc.start, s.now, e);
      }
    }
  }

  /** A step by which a call only changes its own place. */
  lemma InvMove<K, A, V, Q, R>(code: Code<K, A, V, Q, R>, s: State<K, A, V, Q, R>, id: nat, pc: Pc<K, A, V, R>, holder: Option<nat>)
    requires Inv(code, s) && id in s.calls
    requires CallOk(code, s, s.calls[id].(pc := pc))
    requires InSection(pc) <==> holder == Some(id)
    requires holder == s.holder || (s.holder == None && holder == Some(id)) || (s.holder == Some(id) && holder == None)
    ensures Inv(code, Move(s, id, pc).(holder := holder))
  {
    var s' := Move(s, id, pc).(holder := holder);
    forall k | k in s'.calls ensures CallOk(code, s', s'.calls[k]) {
      assert k != id ==> CallOk(code, s, s.calls[k]);
    }
  }

  lemma SpacedSnoc<K, A, V>(fetches: seq<Fetch<K, A, V>>, f: Fetch<K, A, V>)
    requires Spaced(fetches) && AllExpired(fetches, f.key, f.at)
    ensures Spaced(fetches + [f])
  {}

  lemma OriginsAfterStore<K, A, V, Q, R>(code: Code<K, A, V, Q, R>, s: State<K, A, V, Q, R>, id: nat)
    requires OriginInv(s) && Enabled(code, s, Step<K, A, Q>.Store(id))
    ensures OriginInv(Next(code, s, Step<K, A, Q>.Store(id)))
  {
    var s' := Next(code, s, Step<K, A, Q>.Store(id));
    var c := s.calls[id];
    forall k | k in s'.cache ensures exists i: nat :: Origin(s'.fetches, i, k, s'.cache[k].value, s'.cache[k].setAt) {
      if k == c.key {
        assert Origin(s'.fetches, |s.fetches|, k, Stored(code, c, s.now).value, s.now);
      } else {
        var i: nat :| Origin(s.fetches, i, k, s.cache[k].value, s.cache[k].setAt);
        assert Origin(s'.fetches, i, k, s.cache[k].value, s.cache[k].setAt);
      }
    }
  }

  lemma FetchesAfterStore<K, A, V, Q, R>(code: Code<K, A, V, Q, R>, s: State<K, A, V, Q, R>, id: nat)
    requires FetchesInv(code, s) && Enabled(code, s, Step<K, A, Q>.Store(id)) && CallOk(code, s, s.calls[id])
    ensures FetchesInv(code, Next(code, s, Step<K, A, Q>.Store(id)))
  {
    var s' := Next(code, s, Step<K, A, Q>.Store(id));
    forall i | 0 <= i < |s'.fetches| ensures FetchOk(code, s'.fetches[i], s'.past, s'.now) && Covered(s'.fetches[i], s'.cache, s'.now) {
      if i < |s.fetches| {
        assert s'.fetches[i] == s.fetches[i];
        assert FetchOk(code, s.fetches[i], s.past, s.now) && Covered(s.fetches[i], s.cache, s.now);
      }
    }
  }

  lemma CacheInvStore<K, A, V, Q, R>(code: Code<K, A, V, Q, R>, s: State<K, A, V, Q, R>, id: nat)
    requires Inv(code, s) && Enabled(code, s, Step<K, A, Q>.Store(id))
    ensures CacheInv(code, Next(code, s, Step<K, A, Q>.Store(id)))
  {
    var c := s.calls[id];
    assert CallOk(code, s, c);
    SpacedSnoc(s.fetches, Stored(code, c, s.now));
    FetchesAfterStore(code, s, id);
    OriginsAfterStore(code, s, id);
  }

  lemma InvStore<K, A, V, Q, R>(code: Code<K, A, V, Q, R>, s: State<K, A, V, Q, R>, id: nat)
    requires Inv(code, s) && Enabled(code, s, Step<K, A, Q>.Store(id))
    ensures Inv(code, Next(code, s, Step<K, A, Q>.Store(id)))
  {
    var s' := Next(code, s, Step<K, A, Q>.Store(id));
    var c := s.calls[id];
    var f := Stored(code, c, s.now);
    CacheInvStore(code, s, id);
    forall k | k in s'.calls ensures CallOk(code, s', s'.calls[k]) {
      var d := s.calls[k];
      assert CallOk(code, s, d);
      if k == id {
        assert Origin(s'.fetches, |s.fetches|, c.key, f.value, s.now);
      } else if d.pc.Releasing? || d.pc.Returned? {
        ReplyOkGrows(code, s, d, d.pc.reply, s.now, f);
      }
    }
  }

  lemma InvBegin<K, A, V, Q, R>(code: Code<K, A, V, Q, R>, s: State<K, A, V, Q, R>, id: nat, key: string, query: Q)
    requires Inv(code, s) && id !in s.calls
    ensures Inv(code, s.(calls := s.calls[id := Call(key, query, Peeking)]))
  {
    var s' := s.(calls := s.calls[id := Call(key, query, Peeking)]);
    forall k | k in s'.calls ensures CallOk(code, s', s'.calls[k]) {
      assert k != id ==> CallOk(code, s, s.calls[k]);
    }
  }

  lemma InvEvict<K, A, V, Q, R>(code: Code<K, A, V, Q, R>, s: State<K, A, V, Q, R>, key: string)
    requires Inv(code, s) && key in s.cache && !Live(s.cache[key], s.now)
    ensures Inv(code, s.(cache := s.cache - {key}))
  {
    var s' := s.(cache := s.cache - {key});
    forall k | k in s'.calls ensures CallOk(code, s', s'.calls[k]) {
      assert CallOk(code, s, s.calls[k]);
    }
  }

  lemma InvNext<K, A, V, Q, R>(code: Code<K, A, V, Q, R>, s: State<K, A, V, Q, R>, step: Step<K, A, Q>)
    requires Inv(code, s) && Enabled(code, s, step)
    ensures Inv(code, Next(code, s, step))
  {
    match step
    case Tick(delay) => InvTick(code, s, delay);
    case Change(world) => InvChange(code, s, world);
    case Evict(key) => InvEvict(code, s, key);
    case Begin(id, key, query) => InvBegin(code, s, id, key, query);
    case Store(id) => InvStore(code, s, id);
    case _ => InvPlace(code, s, step);
  }

  /** The steps by which a call goes from one place to the next without touching the cache. */
  lemma InvPlace<K, A, V, Q, R>(code: Code<K, A, V, Q, R>, s: State<K, A, V, Q, R>, step: Step<K, A, Q>)
    requires Inv(code, s) && Enabled(code, s, step)
    requires step.Peek? || step.Lock? || step.Recheck? || step.Ask? || step.AskFails? || step.GiveUp? || step.Unlock?
    ensures Inv(code, Next(code, s, step))
  {
    var id, s' := step.id, Next(code, s, step);
    assert CallOk(code, s, s.calls[id]);
    if step.Peek? || step.Recheck? {
      if Hit(code, s, id).Some? {
        HitOk(code, s, id);
      } else {
        MissMeansExpired(code, s, id);
      }
    } else if step.Ask? || step.AskFails? {
      var pc := s.calls[id].pc;
      var heard := s'.calls[id].pc.heard;
      if step.Ask? && step.ask in World(s) {
        HeldNow(s, step.ask);
      }
      HeardOkSnoc(s.past, pc.heard, heard[|pc.heard|], pc.start, s.now);
    }
    InvMove(code, s, id, s'.calls[id].pc, s'.holder);
  }

  lemma {:induction false} InvAlways<K, A, V, Q, R>(code: Code<K, A, V, Q, R>, now: int, world: imap<K, A>, steps: seq<Step<K, A, Q>>)
    requires Runs(code, Start(now, world), steps)
    ensures Inv(code, After(code, Start(now, world), steps))
  {
    if steps != [] {
      InvAlways(code, now, world, steps[..|steps|-1]);
      InvNext(code, After(code, Start(now, world), steps[..|steps|-1]), steps[|steps|-1]);
    }
  }

  // ----- what holds in every run -----

  /** Mutual exclusion, and in particular one fetch at a time. */
  lemma MutualExclusion<K, A, V, Q, R>(code: Code<K, A, V, Q, R>, now: int, world: imap<K, A>, steps: seq<Step<K, A, Q>>, a: nat, b: nat)
    requires Runs(code, Start(now, world), steps)
    ensures var s: State<K, A, V, Q, R> := After(code, Start(now, world), steps);
            a in s.calls && b in s.calls && InSection(s.calls[a].pc) && InSection(s.calls[b].pc) ==> a == b
  {
    InvAlways(code, now, world, steps);
  }

  /** Two fetches stored under one key lie more than a TTL apart. */
  lemma FetchesAreSpaced<K, A, V, Q, R>(code: Code<K, A, V, Q, R>, now: int, world: imap<K, A>, steps: seq<Step<K, A, Q>>, i: nat, j: nat)
    requires Runs(code, Start(now, world), steps)
    ensures var s: State<K, A, V, Q, R> := After(code, Start(now, world), steps);
            i < j < |s.fetches| && s.fetches[i].key == s.fetches[j].key ==> s.fetches[j].at - s.fetches[i].at > TTL
  {
    InvAlways(code, now, world, steps);
  }

  /** How many fetches under `key` were stored between `from` and `to`. */
  ghost function Count<K, A, V>(fetches: seq<Fetch<K, A, V>>, key: string, from: int, to: int): nat {
    if fetches == [] then 0
    else
      var last := fetches[|fetches|-1];
      Count(fetches[..|fetches|-1], key, from, to) + if last.key == key && from <= last.at <= to then 1 else 0
  }

  lemma {:induction false} SpacedCount<K, A, V>(fetches: seq<Fetch<K, A, V>>, key: string, from: int, to: int) returns (latest: nat)
    requires Spaced(fetches) && Count(fetches, key, from, to) > 0
    ensures latest < |fetches| && fetches[latest].key == key
    ensures from + (Count(fetches, key, from, to) - 1) * TTL <= fetches[latest].at <= to
  {
    var n := |fetches| - 1;
    var before := fetches[..n];
    latest := n;
    if Count(before, key, from, to) > 0 {
      var earlier := SpacedCount(before, key, from, to);
      if Count(fetches, key, from, to) == Count(before, key, from, to) {
        latest := earlier;
      } else {
        assert fetches[earlier].at + TTL < fetches[n].at;
      }
    }
  }

  /** However many callers there are, a stretch of time of length T sees at most T / TTL + 1 stored
      fetches under one key. */
  lemma FetchRate<K, A, V, Q, R>(code: Code<K, A, V, Q, R>, now: int, world: imap<K, A>, steps: seq<Step<K, A, Q>>,
                           key: string, from: int, to: int)
    requires Runs(code, Start(now, world), steps) && from <= to
    ensures var s: State<K, A, V, Q, R> := After(code, Start(now, world), steps);
            Count(s.fetches, key, from, to) <= (to - from) / TTL + 1
  {
    InvAlways(code, now, world, steps);
    var s: State<K, A, V, Q, R> := After(code, Start(now, world), steps);
    SpacedRate(s.fetches, key, from, to);
  }

  /** In numbers: in any hour at most five fetches are stored under one key. */
  lemma HourlyRate<K, A, V, Q, R>(code: Code<K, A, V, Q, R>, now: int, world: imap<K, A>, steps: seq<Step<K, A, Q>>,
                                  key: string, from: int)
    requires Runs(code, Start(now, world), steps)
    ensures var s: State<K, A, V, Q, R> := After(code, Start(now, world), steps);
            Count(s.fetches, key, from, from + 3_600_000_000_000) <= 5
  {
    FetchRate(code, now, world, steps, key, from, from + 3_600_000_000_000);
  }

  lemma SpacedRate<K, A, V>(fetches: seq<Fetch<K, A, V>>, key: string, from: int, to: int)
    requires Spaced(fetches) && from <= to
    ensures Count(fetches, key, from, to) <= (to - from) / TTL + 1
  {
    var n := Count(fetches, key, from, to);
    if n > 0 {
      var latest := SpacedCount(fetches, key, from, to);
      Quotient(n - 1, to - from);
    }
  }

  lemma Quotient(n: nat, length: nat)
    requires n * TTL <= length
    ensures n <= length / TTL
  {}

  /** Every reply views, by the caller's own query, a listing built from API answers to a fetch for
      the caller's key, each of which the API would have given at its moment between the start of
      the fetch and the storing, no more than one TTL before the reply was made: whichever caller
      brought the listing, and with whatever query. */
  lemma RepliesRefineAsking<K, A, V, Q, R>(code: Code<K, A, V, Q, R>, now: int, world: imap<K, A>, steps: seq<Step<K, A, Q>>, id: nat)
    returns (f: Fetch<K, A, V>)
    requires Runs(code, Start(now, world), steps)
    requires var s: State<K, A, V, Q, R> := After(code, Start(now, world), steps);
             id in s.calls && s.calls[id].pc.Returned? && s.calls[id].pc.reply.Got?
    ensures var s: State<K, A, V, Q, R> := After(code, Start(now, world), steps);
            var c := s.calls[id];
            && f in s.fetches && f.key == c.key && f.value == c.pc.reply.value
            && c.pc.reply.result == code.view(f.value, c.query)
            && code.build(f.key, f.heard) == Some(f.value)
            && HeardOk(s.past, f.heard, f.start, f.at)
            && f.at <= c.pc.reply.at <= f.at + TTL
  {
    InvAlways(code, now, world, steps);
    var s: State<K, A, V, Q, R> := After(code, Start(now, world), steps);
    var c := s.calls[id];
    assert CallOk(code, s, c);
    var i: nat, at :| Origin(s.fetches, i, c.key, c.pc.reply.value, at) && at <= c.pc.reply.at <= at + TTL;
    f := s.fetches[i];
    assert FetchOk(code, f, s.past, s.now);
  }

  /** How many steps a call is from returning. */
  ghost function Distance<K, A, V, R>(pc: Pc<K, A, V, R>): nat {
    match pc
    case Peeking => 5
    case Waiting => 4
    case Rechecking => 3
    case Fetching(_, _) => 2
    case Releasing(_) => 1
    case Returned(_) => 0
  }

  /** The protocol cannot get stuck: while a call is unfinished, some call can take a step that
      brings it closer to returning and leaves the other calls where they are. */
  lemma NoDeadlock<K, A, V, Q, R>(code: Code<K, A, V, Q, R>, now: int, world: imap<K, A>, steps: seq<Step<K, A, Q>>, waiting: nat)
    returns (step: Step<K, A, Q>, id: nat)
    requires Runs(code, Start(now, world), steps)
    requires var s: State<K, A, V, Q, R> := After(code, Start(now, world), steps);
             waiting in s.calls && !s.calls[waiting].pc.Returned?
    ensures var s: State<K, A, V, Q, R> := After(code, Start(now, world), steps);
            && Enabled(code, s, step) && id in s.calls
            && var s' := Next(code, s, step);
               && s'.calls.Keys == s.calls.Keys
               && Distance(s'.calls[id].pc) < Distance(s.calls[id].pc)
               && forall k | k in s.calls && k != id :: s'.calls[k] == s.calls[k]
  {
    InvAlways(code, now, world, steps);
    var s: State<K, A, V, Q, R> := After(code, Start(now, world), steps);
    step, id := SomeCallProgresses(code, s, waiting);
  }

  lemma SomeCallProgresses<K, A, V, Q, R>(code: Code<K, A, V, Q, R>, s: State<K, A, V, Q, R>, waiting: nat) returns (step: Step<K, A, Q>, id: nat)
    requires LockInv(s) && waiting in s.calls && !s.calls[waiting].pc.Returned?
    ensures Enabled(code, s, step) && id in s.calls && Next(code, s, step).calls.Keys == s.calls.Keys
    ensures Distance(Next(code, s, step).calls[id].pc) < Distance(s.calls[id].pc)
    ensures forall k | k in s.calls && k != id :: Next(code, s, step).calls[k] == s.calls[k]
  {
    id := if s.holder.Some? then s.holder.value else waiting;
    step := match s.calls[id].pc
            case Peeking => Peek(id)
            case Waiting => Lock(id)
            case Rechecking => Recheck(id)
            case Fetching(_, _) => GiveUp(id)
            case _ => Unlock(id);
  }

  // ----- a call that nobody interferes with -----

  lemma Then<K, A, V, Q, R>(code: Code<K, A, V, Q, R>, s: State<K, A, V, Q, R>, steps: seq<Step<K, A, Q>>, step: Step<K, A, Q>)
    returns (more: seq<Step<K, A, Q>>)
    requires Runs(code, s, steps) && Enabled(code, After(code, s, steps), step)
    ensures more == steps + [step] && Runs(code, s, more)
    ensures After(code, s, more) == Next(code, After(code, s, steps), step)
  {
    more := steps + [step];
    assert more[..|steps|] == steps;
  }

  lemma Overwritten<X>(m: map<nat, X>, k: nat, a: X, b: X)
    ensures m[k := a][k := b] == m[k := b]
  {}

  /** The state in which only the call `id` is somewhere else. */
  ghost function With<K, A, V, Q, R>(s: State<K, A, V, Q, R>, id: nat, c: Call<K, A, V, Q, R>): State<K, A, V, Q, R> {
    s.(calls := s.calls[id := c])
  }

  lemma AloneBegins<K, A, V, Q, R>(code: Code<K, A, V, Q, R>, s: State<K, A, V, Q, R>, id: nat, key: string, query: Q)
    returns (steps: seq<Step<K, A, Q>>)
    requires id !in s.calls
    ensures Runs(code, s, steps)
    ensures var found := Lookup(s.cache, key, s.now);
            After(code, s, steps) == With(s, id, Call(key, query,
              if found.Some? then Returned(Got(code.view(found.value, query), found.value, s.now)) else Waiting))
  {
    steps := Then(code, s, [], Begin(id, key, query));
    assert After(code, s, steps) == With(s, id, Call(key, query, Peeking));
    var found := Lookup(s.cache, key, s.now);
    var pc: Pc<K, A, V, R> := if found.Some? then Returned(Got(code.view(found.value, query), found.value, s.now)) else Waiting;
    steps := Then(code, s, steps, Peek(id));
    Overwritten(s.calls, id, Call(key, query, Peeking), Call(key, query, pc));
  }

  lemma AloneLocks<K, A, V, Q, R>(code: Code<K, A, V, Q, R>, s: State<K, A, V, Q, R>, id: nat, key: string, query: Q)
    returns (steps: seq<Step<K, A, Q>>)
    requires s.holder.None? && id !in s.calls && Lookup(s.cache, key, s.now).None?
    ensures Runs(code, s, steps)
    ensures After(code, s, steps) == With(s, id, Call(key, query, Fetching(s.now, []))).(holder := Some(id))
  {
    steps := AloneBegins(code, s, id, key, query);
    steps := Then(code, s, steps, Lock(id));
    Overwritten(s.calls, id, Call(key, query, Waiting), Call(key, query, Rechecking));
    assert After(code, s, steps) == With(s, id, Call(key, query, Rechecking)).(holder := Some(id));
    steps := Then(code, s, steps, Recheck(id));
    Overwritten(s.calls, id, Call(key, query, Rechecking), Call(key, query, Fetching(s.now, [])));
  }

  /** What one moment's world answers to a list of calls. */
  ghost function Answers<K, A>(world: imap<K, A>, asks: seq<K>, now: int): seq<Heard<K, A>> {
    seq(|asks|, i requires 0 <= i < |asks| => Heard(asks[i], if asks[i] in world then Some(world[asks[i]]) else None, now))
  }

  lemma AnswersAppend<K, A>(world: imap<K, A>, a: seq<K>, b: seq<K>, now: int)
    ensures Answers(world, a + b, now) == Answers(world, a, now) + Answers(world, b, now)
  {}

  lemma AnswersSnoc<K, A>(world: imap<K, A>, asks: seq<K>, now: int)
    requires asks != []
    ensures var n := |asks| - 1;
            Answers(world, asks, now) ==
              Answers(world, asks[..n], now) + [Heard(asks[n], if asks[n] in world then Some(world[asks[n]]) else None, now)]
  {}

  lemma {:induction false} AloneAsks<K, A, V, Q, R>(code: Code<K, A, V, Q, R>, s: State<K, A, V, Q, R>, before: seq<Step<K, A, Q>>,
                                                    s0: State<K, A, V, Q, R>, id: nat, c: Call<K, A, V, Q, R>, asks: seq<K>)
    returns (steps: seq<Step<K, A, Q>>)
    requires Runs(code, s, before) && After(code, s, before) == With(s0, id, c)
    requires s0.past != [] && c.pc.Fetching? && c.pc.heard == []
    ensures Runs(code, s, steps)
    ensures After(code, s, steps) == With(s0, id, c.(pc := c.pc.(heard := Answers(World(s0), asks, s0.now))))
  {
    if asks == [] {
      steps := before;
      assert Answers(World(s0), asks, s0.now) == [];
    } else {
      var n := |asks| - 1;
      steps := AloneAsks(code, s, before, s0, id, c, asks[..n]);
      AnswersSnoc(World(s0), asks, s0.now);
      steps := Then(code, s, steps, Ask(id, asks[n]));
      Overwritten(s0.calls, id, c.(pc := c.pc.(heard := Answers(World(s0), asks[..n], s0.now))),
                  c.(pc := c.pc.(heard := Answers(World(s0), asks, s0.now))));
    }
  }

  /** The fetch ends: with what it has heard if that is a listing. */
  lemma AloneEnds<K, A, V, Q, R>(code: Code<K, A, V, Q, R>, s: State<K, A, V, Q, R>, before: seq<Step<K, A, Q>>,
                                 s0: State<K, A, V, Q, R>, id: nat, c: Call<K, A, V, Q, R>)
    returns (steps: seq<Step<K, A, Q>>)
    requires Runs(code, s, before) && After(code, s, before) == With(s0, id, c) && c.pc.Fetching?
    ensures Runs(code, s, steps)
    ensures var s', built := After(code, s, steps), code.build(c.key, c.pc.heard);
            && id in s'.calls && s'.holder.None? && s'.now == s0.now
            && s'.cache == (if built.Some? then s0.cache[c.key := Entry(built.value, s0.now)] else s0.cache)
            && s'.calls[id].pc == Returned(if built.Some? then Got(code.view(built.value, c.query), built.value, s0.now) else Failed)
  {
    steps := Then(code, s, before, if code.build(c.key, c.pc.heard).Some? then Store(id) else GiveUp(id));
    steps := Then(code, s, steps, Unlock(id));
  }

  /** Run by itself, a call that asks the API `asks` is the sequential read through the cache that the
      List methods implement, viewed by the caller's query. */
  lemma AloneIsReadThrough<K, A, V, Q, R>(code: Code<K, A, V, Q, R>, s: State<K, A, V, Q, R>, id: nat, key: string, query: Q, asks: seq<K>)
    returns (steps: seq<Step<K, A, Q>>)
    requires s.holder.None? && s.past != [] && id !in s.calls
    ensures Runs(code, s, steps)
    ensures var s' := After(code, s, steps);
            var (value, cache) := ReadThrough(s.cache, key, s.now, code.build(key, Answers(World(s), asks, s.now)));
            && s'.cache == cache && s'.holder.None? && s'.now == s.now && id in s'.calls
            && s'.calls[id].pc ==
               Returned(if value.None? then Failed else Got(code.view(value.value, query), value.value, s.now))
  {
    if Lookup(s.cache, key, s.now).Some? {
      steps := AloneBegins(code, s, id, key, query);
    } else {
      steps := AloneFetches(code, s, id, key, query, asks);
    }
  }

  lemma AloneFetches<K, A, V, Q, R>(code: Code<K, A, V, Q, R>, s: State<K, A, V, Q, R>, id: nat, key: string, query: Q, asks: seq<K>)
    returns (steps: seq<Step<K, A, Q>>)
    requires s.holder.None? && s.past != [] && id !in s.calls && Lookup(s.cache, key, s.now).None?
    ensures Runs(code, s, steps)
    ensures var s', built := After(code, s, steps), code.build(key, Answers(World(s), asks, s.now));
            && id in s'.calls && s'.holder.None? && s'.now == s.now
            && s'.cache == (if built.Some? then s.cache[key := Entry(built.value, s.now)] else s.cache)
            && s'.calls[id].pc == Returned(if built.Some? then Got(code.view(built.value, query), built.value, s.now) else Failed)
  {
    var locked := s.(holder := Some(id));
    var c: Call<K, A, V, Q, R> := Call(key, query, Fetching(s.now, []));
    steps := AloneLocks(code, s, id, key, query);
    steps := AloneAsks(code, s, steps, locked, id, c, asks);
    steps := AloneEnds(code, s, steps, locked, id, c.(pc := c.pc.(heard := Answers(World(s), asks, s.now))));
  }

  // ----- fetches of a single call -----

  /** A listing that is the answer to one API call, named like the cache key. */
  function OneCall<A>(): (string, seq<Heard<string, A>>) -> Option<A> {
    (key: string, heard: seq<Heard<string, A>>) => if |heard| == 1 && heard[0].ask == key then heard[0].answer else None
  }

  /** Where a listing takes a single call, every reply views what the API would have answered at one
      moment, no further back than one TTL and the duration of one fetch. */
  lemma OneCallIsOneMoment<A, Q, R>(code: Code<string, A, A, Q, R>, now: int, world: imap<string, A>, steps: seq<Step<string, A, Q>>, id: nat)
    returns (snap: int, f: Fetch<string, A, A>)
    requires code.build == OneCall() && Runs(code, Start(now, world), steps)
    requires var s: State<string, A, A, Q, R> := After(code, Start(now, world), steps);
             id in s.calls && s.calls[id].pc.Returned? && s.calls[id].pc.reply.Got?
    ensures var s: State<string, A, A, Q, R> := After(code, Start(now, world), steps);
            var c := s.calls[id];
            && c.pc.reply.result == code.view(c.pc.reply.value, c.query)
            && HeldAt(s.past, snap, c.key, c.pc.reply.value)
            && f in s.fetches && f.key == c.key && f.start <= snap <= f.at
            && snap <= c.pc.reply.at <= snap + TTL + (f.at - f.start)
  {
    f := RepliesRefineAsking(code, now, world, steps, id);
    snap := f.heard[0].at;
    assert PieceOk(After(code, Start(now, world), steps).past, f.heard[0], f.start, f.at);
  }
}
