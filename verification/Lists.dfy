/** The list helpers the providers take from the lo library: first match, stable filter,
    keep-first uniqueness by key and concatenated mapping, with the facts about them that the
    selector proofs use.  All of them recurse on the last element, as the loops that use them do. */
module Lists {

  datatype Option<+T> = None | Some(value: T)

  /** lo.Find: the first element that satisfies `p`. */
  function Find<T>(s: seq<T>, p: T -> bool): (r: Option<T>)
    ensures r.None? <==> forall i | 0 <= i < |s| :: !p(s[i])
    ensures r.Some? ==>
      exists i | 0 <= i < |s| :: s[i] == r.value && p(s[i]) && forall j | 0 <= j < i :: !p(s[j])
  {
    if s == [] then None
    else
      var before := Find(s[..|s|-1], p);
      if before.Some? then before
      else if p(s[|s|-1]) then Some(s[|s|-1])
      else None
  }

  /** lo.Filter: the elements that satisfy `p`, in their order. */
  function Filter<T>(s: seq<T>, p: T -> bool): seq<T> {
    if s == [] then []
    else Filter(s[..|s|-1], p) + if p(s[|s|-1]) then [s[|s|-1]] else []
  }

  /** True when some element of `s` has the key `k`. */
  predicate HasKey<T>(s: seq<T>, key: T -> string, k: string) {
    exists i | 0 <= i < |s| :: key(s[i]) == k
  }

  /** lo.UniqBy: for every key the first element that carries it, in order. */
  function UniqBy<T>(s: seq<T>, key: T -> string): seq<T> {
    if s == [] then []
    else
      var before := UniqBy(s[..|s|-1], key);
      if HasKey(before, key, key(s[|s|-1])) then before else before + [s[|s|-1]]
  }

  /** The concatenation of `f` over the elements: what appending in a loop builds. */
  function FlatMap<S, T>(s: seq<S>, f: S -> seq<T>): seq<T> {
    if s == [] then [] else FlatMap(s[..|s|-1], f) + f(s[|s|-1])
  }

  /** lo.Map. */
  function Map<S, T>(s: seq<S>, f: S -> T): (r: seq<T>)
    ensures |r| == |s| && forall i | 0 <= i < |s| :: r[i] == f(s[i])
  {
    seq(|s|, i requires 0 <= i < |s| => f(s[i]))
  }

  /** No two elements share a key. */
  ghost predicate UniqueBy<T>(s: seq<T>, key: T -> string) {
    forall i, j | 0 <= i < j < |s| :: key(s[i]) != key(s[j])
  }

  /** Elements with equal keys are equal. */
  ghost predicate Coherent<T>(s: seq<T>, key: T -> string) {
    forall i, j | 0 <= i < j < |s| && key(s[i]) == key(s[j]) :: s[i] == s[j]
  }

  /** Adding one element at the end: the only unfolding the loops need. */
  lemma Snoc<T>(s: seq<T>, i: nat)
    requires i < |s|
    ensures s[..i + 1][..i] == s[..i] && s[..i + 1][i] == s[i] && s[..i + 1] == s[..i] + [s[i]]
  {}

  lemma {:induction false} FilterMembers<T>(s: seq<T>, p: T -> bool, x: T)
    ensures x in Filter(s, p) <==> x in s && p(x)
  {
    if s != [] {
      FilterMembers(s[..|s|-1], p, x);
      assert s == s[..|s|-1] + [s[|s|-1]];
    }
  }

  lemma FilterSnoc<T>(before: seq<T>, x: T, p: T -> bool)
    ensures Filter(before + [x], p) == Filter(before, p) + if p(x) then [x] else []
  {
    assert (before + [x])[..|before|] == before;
  }

  lemma {:induction false} FilterAppend<T>(a: seq<T>, b: seq<T>, p: T -> bool)
    ensures Filter(a + b, p) == Filter(a, p) + Filter(b, p)
  {
    if b == [] {
      assert a + b == a;
    } else {
      FilterAppend(a, b[..|b|-1], p);
      assert (a + b)[..|a + b|-1] == a + b[..|b|-1];
    }
  }

  /** A predicate that holds at one position only selects that element only. */
  lemma {:induction false} FilterOne<T>(s: seq<T>, p: T -> bool, i: nat)
    requires i < |s| && p(s[i])
    requires forall j | 0 <= j < |s| && j != i :: !p(s[j])
    ensures Filter(s, p) == [s[i]]
  {
    var n := |s| - 1;
    if i < n {
      FilterOne(s[..n], p, i);
    } else {
      FilterNone(s[..n], p);
    }
  }

  lemma {:induction false} FilterNone<T>(s: seq<T>, p: T -> bool)
    requires forall j | 0 <= j < |s| :: !p(s[j])
    ensures Filter(s, p) == []
  {
    if s != [] {
      FilterNone(s[..|s|-1], p);
    }
  }

  lemma {:induction false} FilterAll<T>(s: seq<T>, p: T -> bool)
    requires forall j | 0 <= j < |s| :: p(s[j])
    ensures Filter(s, p) == s
  {
    if s != [] {
      FilterAll(s[..|s|-1], p);
    }
  }

  /** `r` is the one element that comes first with the key. */
  ghost predicate IsFirst<T>(s: seq<T>, key: T -> string, k: string, r: seq<T>) {
    exists i | 0 <= i < |s| :: r == [s[i]] && key(s[i]) == k && forall j | 0 <= j < i :: key(s[j]) != k
  }

  lemma FindIsFirst<T>(s: seq<T>, key: T -> string, p: T -> bool, k: string)
    requires forall j | 0 <= j < |s| :: p(s[j]) == (key(s[j]) == k)
    ensures Find(s, p).Some? <==> HasKey(s, key, k)
    ensures Find(s, p).Some? ==> IsFirst(s, key, k, [Find(s, p).value])
  {}

  /** Where keys are unique, the first match of a key is the only one. */
  lemma FindIsFilter<T>(s: seq<T>, key: T -> string, p: T -> bool, k: string)
    requires UniqueBy(s, key) && forall j | 0 <= j < |s| :: p(s[j]) == (key(s[j]) == k)
    ensures Filter(s, p) == if Find(s, p).Some? then [Find(s, p).value] else []
  {
    if Find(s, p).Some? {
      var i :| 0 <= i < |s| && s[i] == Find(s, p).value && p(s[i]);
      FilterOne(s, p, i);
    } else {
      FilterNone(s, p);
    }
  }

  /** Two predicates that agree on the elements filter alike. */
  lemma {:induction false} FilterSame<T>(s: seq<T>, p: T -> bool, q: T -> bool)
    requires forall j | 0 <= j < |s| :: p(s[j]) == q(s[j])
    ensures Filter(s, p) == Filter(s, q)
  {
    if s != [] {
      FilterSame(s[..|s|-1], p, q);
    }
  }

  /** Filtering by one predicate and then another is filtering by both. */
  lemma {:induction false} FilterTwice<T>(s: seq<T>, p: T -> bool, q: T -> bool, both: T -> bool)
    requires forall j | 0 <= j < |s| :: both(s[j]) == (p(s[j]) && q(s[j]))
    ensures Filter(Filter(s, p), q) == Filter(s, both)
  {
    if s != [] {
      FilterTwice(s[..|s|-1], p, q, both);
      var x := s[|s|-1];
      FilterAppend(Filter(s[..|s|-1], p), if p(x) then [x] else [], q);
      assert Filter([x], q) == if q(x) then [x] else [];
    }
  }

  lemma {:induction false} UniqByFacts<T>(s: seq<T>, key: T -> string)
    ensures UniqueBy(UniqBy(s, key), key)
    ensures forall k :: HasKey(UniqBy(s, key), key, k) <==> HasKey(s, key, k)
    ensures forall x :: x in UniqBy(s, key) ==> x in s
  {
    if s != [] {
      var before, x := s[..|s|-1], s[|s|-1];
      UniqByFacts(before, key);
      assert s == before + [x];
      HasKeySnoc(before, x, key);
      HasKeySnoc(UniqBy(before, key), x, key);
    }
  }

  lemma HasKeySnoc<T>(s: seq<T>, x: T, key: T -> string)
    ensures forall k :: HasKey(s + [x], key, k) <==> HasKey(s, key, k) || key(x) == k
  {
    forall k ensures HasKey(s + [x], key, k) <==> HasKey(s, key, k) || key(x) == k {
      if HasKey(s, key, k) {
        var i :| 0 <= i < |s| && key(s[i]) == k;
        assert (s + [x])[i] == s[i];
      }
      assert (s + [x])[|s|] == x;
    }
  }

  lemma UniqBySnoc<T>(before: seq<T>, x: T, key: T -> string)
    ensures UniqBy(before + [x], key) == UniqBy(before, key) + if HasKey(before, key, key(x)) then [] else [x]
  {
    assert (before + [x])[..|before|] == before;
    UniqByFacts(before, key);
  }

  /** Appending candidates never disturbs what was kept before. */
  lemma {:induction false} UniqByAppend<T>(a: seq<T>, b: seq<T>, key: T -> string)
    ensures UniqBy(a, key) <= UniqBy(a + b, key)
  {
    if b == [] {
      assert a + b == a;
    } else {
      UniqByAppend(a, b[..|b|-1], key);
      assert (a + b)[..|a + b|-1] == a + b[..|b|-1];
    }
  }

  lemma {:induction false} FlatMapAppend<S, T>(a: seq<S>, b: seq<S>, f: S -> seq<T>)
    ensures FlatMap(a + b, f) == FlatMap(a, f) + FlatMap(b, f)
  {
    if b == [] {
      assert a + b == a;
    } else {
      FlatMapAppend(a, b[..|b|-1], f);
      assert (a + b)[..|a + b|-1] == a + b[..|b|-1];
    }
  }

  lemma FlatMapFirst<S, T>(s: seq<S>, f: S -> seq<T>)
    requires s != []
    ensures FlatMap(s, f) == f(s[0]) + FlatMap(s[1..], f)
  {
    assert s == [s[0]] + s[1..] && [s[0]][..0] == [];
    FlatMapAppend([s[0]], s[1..], f);
  }

  lemma {:induction false} FlatMapEmpty<S, T>(s: seq<S>, f: S -> seq<T>)
    ensures FlatMap(s, f) == [] <==> forall i | 0 <= i < |s| :: f(s[i]) == []
  {
    if s != [] {
      var n := |s| - 1;
      FlatMapEmpty(s[..n], f);
      assert forall i | 0 <= i < n :: s[..n][i] == s[i];
    }
  }

  lemma {:induction false} UniqByEmpty<T>(s: seq<T>, key: T -> string)
    ensures UniqBy(s, key) == [] <==> s == []
  {
    if s != [] {
      UniqByEmpty(s[..|s|-1], key);
      assert UniqBy(s[..|s|-1], key) == [] ==> !HasKey(UniqBy(s[..|s|-1], key), key, key(s[|s|-1]));
    }
  }

  lemma {:induction false} FlatMapMembers<S, T>(s: seq<S>, f: S -> seq<T>, x: T)
    ensures x in FlatMap(s, f) <==> exists i | 0 <= i < |s| :: x in f(s[i])
  {
    if s != [] {
      FlatMapMembers(s[..|s|-1], f, x);
      var n := |s| - 1;
      assert forall i | 0 <= i < n :: s[..n][i] == s[i];
    }
  }
}
