/** The expiring map of go-cache that every provider uses.  Times are in nanoseconds, the unit in
    which go-cache compares the clock with an expiration. */
module TtlCache {
  import opened Lists

  /** defaultCacheTTL, fifteen minutes. */
  const TTL: int := 15 * 60 * 1_000_000_000

  datatype Entry<+V> = Entry(value: V, setAt: int)

  type Cache<V> = map<string, Entry<V>>

  /** An entry is served until its expiration has passed. */
  predicate Live<V>(entry: Entry<V>, now: int) {
    now <= entry.setAt + TTL
  }

  function Lookup<V>(cache: Cache<V>, key: string, now: int): Option<V> {
    if key in cache && Live(cache[key], now) then Some(cache[key].value) else None
  }

  /** One uninterrupted read through the cache: serve a live entry, else ask, and store an answer
      but never a failure. */
  function ReadThrough<V>(cache: Cache<V>, key: string, now: int, ask: Option<V>): (Option<V>, Cache<V>) {
    if Lookup(cache, key, now).Some? then (Lookup(cache, key, now), cache)
    else if ask.None? then (None, cache)
    else (ask, cache[key := Entry(ask.value, now)])
  }

  /** Reading through one key changes nothing about what is read through another. */
  lemma KeysAreApart<V>(cache: Cache<V>, a: string, b: string, then_: int, now: int, askA: Option<V>, askB: Option<V>)
    requires a != b
    ensures ReadThrough(ReadThrough(cache, a, then_, askA).1, b, now, askB).0 == ReadThrough(cache, b, now, askB).0
  {}

  /** Keys that differ only behind a common beginning. */
  lemma SameTail(head: string, a: string, b: string)
    ensures head + a == head + b <==> a == b
  {
    assert (head + a)[|head|..] == a && (head + b)[|head|..] == b;
  }
}
