/** Go slices: a length over a backing array that others may share, with room to grow in place. */
module Slices {
  import opened Lists

  datatype Slice<T> = Slice(store: array<T>, len: nat) {
    ghost predicate Valid() { len <= store.Length }

    ghost function Value(): seq<T>
      requires Valid()
      reads store
    {
      store[..len]
    }
  }

  /** A nil slice, or one made with room for `capacity` elements. */
  method Make<T(0)>(capacity: nat) returns (s: Slice<T>)
    ensures s.Valid() && fresh(s.store) && s.store.Length == capacity && s.Value() == []
  {
    var store := new T[capacity];
    s := Slice(store, 0);
  }

  /** append of one element: written in place while there is room, whoever else uses the array. */
  method Push<T(0)>(s: Slice<T>, x: T) returns (r: Slice<T>)
    requires s.Valid()
    modifies s.store
    ensures r.Valid() && r.Value() == old(s.Value()) + [x]
    ensures if s.len < s.store.Length then r.store == s.store else fresh(r.store)
  {
    var store := s.store;
    if s.len == store.Length {
      store := new T[2 * s.len + 1];
      forall i | 0 <= i < s.len {
        store[i] := s.store[i];
      }
    }
    store[s.len] := x;
    r := Slice(store, s.len + 1);
  }

  /** append of another slice. */
  method Append<T(0)>(s: Slice<T>, more: Slice<T>) returns (r: Slice<T>)
    requires s.Valid() && more.Valid() && s.store != more.store
    modifies s.store
    ensures r.Valid() && r.Value() == old(s.Value()) + old(more.Value())
    ensures r.store == s.store || fresh(r.store)
  {
    r := s;
    for i := 0 to more.len
      invariant r.Valid() && r.Value() == old(s.Value()) + more.Value()[..i]
      invariant r.store == s.store || fresh(r.store)
      invariant more.Value() == old(more.Value()) && r.store != more.store
    {
      r := Push(r, more.store[i]);
      assert more.Value()[..i + 1] == more.Value()[..i] + [more.store[i]];
    }
    assert more.Value()[..more.len] == more.Value();
  }

  /** lo.Find. */
  method FindIn<T>(s: Slice<T>, p: T -> bool) returns (r: Option<T>)
    requires s.Valid()
    ensures r == Find(s.Value(), p)
  {
    ghost var v := s.Value();
    for i := 0 to s.len
      invariant Find(v[..i], p) == None
    {
      Snoc(v, i);
      if p(s.store[i]) {
        return Some(s.store[i]);
      }
    }
    assert v[..s.len] == v;
    return None;
  }

  /** lo.Filter: the result has an array of its own. */
  method FilterOf<T(0)>(s: Slice<T>, p: T -> bool) returns (r: Slice<T>)
    requires s.Valid()
    ensures r.Valid() && fresh(r.store) && r.Value() == Filter(s.Value(), p)
  {
    ghost var v := s.Value();
    r := Make(s.len);
    for i := 0 to s.len
      invariant r.Valid() && fresh(r.store) && r.Value() == Filter(v[..i], p)
      invariant s.Value() == v
    {
      Snoc(v, i);
      if p(s.store[i]) {
        r := Push(r, s.store[i]);
      }
    }
    assert v[..s.len] == v;
  }

  /** lo.UniqBy: the result has an array of its own. */
  method UniqOf<T(0)>(s: Slice<T>, key: T -> string) returns (r: Slice<T>)
    requires s.Valid()
    ensures r.Valid() && fresh(r.store) && r.Value() == UniqBy(s.Value(), key)
  {
    ghost var v := s.Value();
    r := Make(s.len);
    var seen: set<string> := {};
    for i := 0 to s.len
      invariant r.Valid() && fresh(r.store) && r.Value() == UniqBy(v[..i], key)
      invariant s.Value() == v
      invariant forall k :: k in seen <==> HasKey(r.Value(), key, k)
    {
      Snoc(v, i);
      var x := s.store[i];
      if key(x) !in seen {
        HasKeySnoc(r.Value(), x, key);
        r := Push(r, x);
        seen := seen + {key(x)};
      }
    }
    assert v[..s.len] == v;
  }
}
