/** What ResolveNetworks and ResolveTemplates do with their candidates, once the selector terms
    have been turned into one candidate list: drop repeated ids, then drop unusable resources.
    The laws below hold for any key and any usability test. */
module Resolution {
  import opened Lists

  function Resolved<R>(candidates: seq<R>, key: R -> string, usable: R -> bool): seq<R> {
    Filter(UniqBy(candidates, key), usable)
  }

  // ----- the declarative reading -----

  /** No earlier candidate carries the same key. */
  ghost predicate First<R>(s: seq<R>, key: R -> string, i: nat)
    requires i < |s|
  {
    forall j | 0 <= j < i :: key(s[j]) != key(s[i])
  }

  ghost predicate Increasing(ix: seq<nat>) {
    forall a, b | 0 <= a < b < |ix| :: ix[a] < ix[b]
  }

  /** The positions in `ix`, in increasing order, are exactly the first usable occurrences. */
  ghost predicate Chooses<R>(s: seq<R>, key: R -> string, usable: R -> bool, ix: seq<nat>) {
    && Increasing(ix)
    && (forall a | 0 <= a < |ix| :: ix[a] < |s|)
    && (forall i: nat | i < |s| :: i in ix <==> First(s, key, i) && usable(s[i]))
  }

  ghost predicate Picks<R>(s: seq<R>, ix: seq<nat>, r: seq<R>) {
    |r| == |ix| && forall a | 0 <= a < |ix| :: ix[a] < |s| && r[a] == s[ix[a]]
  }

  /** `r` lists, in order, the candidates that are the first with their key and usable. */
  ghost predicate KeepsFirstUsable<R(!new)>(s: seq<R>, key: R -> string, usable: R -> bool, r: seq<R>) {
    exists ix: seq<nat> :: Chooses(s, key, usable, ix) && Picks(s, ix, r)
  }

  /** The last candidate is kept when it is the first with its key, and listed when usable. */
  lemma ResolvedSnoc<R>(before: seq<R>, x: R, key: R -> string, usable: R -> bool)
    ensures Resolved(before + [x], key, usable)
         == Resolved(before, key, usable) + if !HasKey(before, key, key(x)) && usable(x) then [x] else []
  {
    UniqBySnoc(before, x, key);
    if !HasKey(before, key, key(x)) {
      FilterSnoc(UniqBy(before, key), x, usable);
    }
  }

  lemma {:induction false} ResolvedPositions<R>(s: seq<R>, key: R -> string, usable: R -> bool) returns (ix: seq<nat>)
    ensures Chooses(s, key, usable, ix) && Picks(s, ix, Resolved(s, key, usable))
  {
    if s == [] {
      ix := [];
    } else {
      var n, before := |s| - 1, s[..|s|-1];
      assert s == before + [s[n]];
      var shorter := ResolvedPositions(before, key, usable);
      ResolvedSnoc(before, s[n], key, usable);
      ix := if !HasKey(before, key, key(s[n])) && usable(s[n]) then shorter + [n] else shorter;
      ChoosesSnoc(before, s[n], key, usable, shorter, ix);
    }
  }

  lemma ChoosesSnoc<R>(before: seq<R>, x: R, key: R -> string, usable: R -> bool, shorter: seq<nat>, ix: seq<nat>)
    requires Chooses(before, key, usable, shorter)
    requires ix == if !HasKey(before, key, key(x)) && usable(x) then shorter + [|before|] else shorter
    ensures Chooses(before + [x], key, usable, ix)
  {
    var s, n := before + [x], |before|;
    FirstSnoc(before, x, key);
    forall i: nat | i < |s| ensures i in ix <==> First(s, key, i) && usable(s[i]) {
      assert i in ix <==> i in shorter || (i == n && |ix| > |shorter|);
    }
  }

  lemma FirstSnoc<R>(before: seq<R>, x: R, key: R -> string)
    ensures forall i: nat | i < |before| :: First(before + [x], key, i) <==> First(before, key, i)
    ensures First(before + [x], key, |before|) <==> !HasKey(before, key, key(x))
  {
    assert forall j | 0 <= j < |before| :: (before + [x])[j] == before[j];
  }

  lemma {:induction false} SamePositions(a: seq<nat>, b: seq<nat>)
    requires Increasing(a) && Increasing(b) && Within(a, b) && Within(b, a)
    ensures a == b
  {
    EmptyAlike(a, b);
    if a != [] {
      SameLast(a, b);
      WithinDropLast(a, b);
      WithinDropLast(b, a);
      SamePositions(a[..|a|-1], b[..|b|-1]);
      SameFromParts(a, b);
    }
  }

  lemma EmptyAlike(a: seq<nat>, b: seq<nat>)
    requires Within(a, b) && Within(b, a)
    ensures a == [] <==> b == []
  {
    if a != [] { assert a[0] in b; }
    if b != [] { assert b[0] in a; }
  }

  lemma SameFromParts(a: seq<nat>, b: seq<nat>)
    requires a != [] && b != [] && a[..|a|-1] == b[..|b|-1] && a[|a|-1] == b[|b|-1]
    ensures a == b
  {
    assert a == a[..|a|-1] + [a[|a|-1]] && b == b[..|b|-1] + [b[|b|-1]];
  }

  ghost predicate Within(a: seq<nat>, b: seq<nat>) {
    forall k | 0 <= k < |a| :: a[k] in b
  }

  lemma SameLast(a: seq<nat>, b: seq<nat>)
    requires a != [] && b != [] && Increasing(a) && Increasing(b) && Within(a, b) && Within(b, a)
    ensures a[|a|-1] == b[|b|-1]
  {
    assert a[|a|-1] in b && b[|b|-1] in a;
  }

  lemma WithinDropLast(a: seq<nat>, b: seq<nat>)
    requires Increasing(a) && a != [] && b != [] && a[|a|-1] == b[|b|-1] && Within(a, b)
    ensures Within(a[..|a|-1], b[..|b|-1])
  {
    var a', b' := a[..|a|-1], b[..|b|-1];
    forall k | 0 <= k < |a'| ensures a'[k] in b' {
      assert a[k] in b;
      var m :| 0 <= m < |b| && b[m] == a[k];
      assert b'[m] == a[k];
    }
  }

  /** The declarative reading has exactly one answer, and it is what the code computes. */
  lemma ResolvedIff<R(!new)>(s: seq<R>, key: R -> string, usable: R -> bool, r: seq<R>)
    ensures r == Resolved(s, key, usable) <==> KeepsFirstUsable(s, key, usable, r)
  {
    var ix := ResolvedPositions(s, key, usable);
    if KeepsFirstUsable(s, key, usable, r) {
      var other: seq<nat> :| Chooses(s, key, usable, other) && Picks(s, other, r);
      SamePositions(ix, other);
    }
  }

  /** The reading depends on what the functions answer for the candidates, not on the functions. */
  lemma KeepsAlike<R(!new)>(s: seq<R>, key: R -> string, key': R -> string, usable: R -> bool, usable': R -> bool, r: seq<R>)
    requires forall x | x in s :: key(x) == key'(x) && usable(x) == usable'(x)
    ensures KeepsFirstUsable(s, key, usable, r) <==> KeepsFirstUsable(s, key', usable', r)
  {
    assert forall i: nat | i < |s| :: s[i] in s;
    assert forall i: nat | i < |s| :: First(s, key, i) == First(s, key', i) by {
      forall i: nat | i < |s| ensures First(s, key, i) == First(s, key', i) {}
    }
    if KeepsFirstUsable(s, key, usable, r) {
      var ix: seq<nat> :| Chooses(s, key, usable, ix) && Picks(s, ix, r);
      assert Chooses(s, key', usable', ix);
    }
    if KeepsFirstUsable(s, key', usable', r) {
      var ix: seq<nat> :| Chooses(s, key', usable', ix) && Picks(s, ix, r);
      assert Chooses(s, key, usable, ix);
    }
  }

  // ----- laws -----

  lemma ResolvedAppend<R>(a: seq<R>, b: seq<R>, key: R -> string, usable: R -> bool)
    ensures Resolved(a, key, usable) <= Resolved(a + b, key, usable)
  {
    UniqByAppend(a, b, key);
    var whole, kept := UniqBy(a + b, key), UniqBy(a, key);
    assert whole == kept + whole[|kept|..];
    FilterAppend(kept, whole[|kept|..], usable);
  }

  /** When equal keys mean equal resources, the outcome as a set depends on the candidates as a set. */
  lemma ResolvedMembers<R(!new)>(s: seq<R>, key: R -> string, usable: R -> bool, x: R)
    requires Coherent(s, key)
    ensures x in Resolved(s, key, usable) <==> x in s && usable(x)
  {
    UniqByFacts(s, key);
    FilterMembers(UniqBy(s, key), usable, x);
    if x in s {
      var i :| 0 <= i < |s| && s[i] == x;
      assert HasKey(s, key, key(x));
      var u := UniqBy(s, key);
      var j :| 0 <= j < |u| && key(u[j]) == key(x);
      assert u[j] in s;
      var m :| 0 <= m < |s| && s[m] == u[j];
      assert u[j] == x;
    }
  }

  /** Every key that has a usable candidate has a usable first candidate. */
  ghost predicate FirstIsUsable<R>(s: seq<R>, key: R -> string, usable: R -> bool) {
    forall i, j | 0 <= i <= j < |s| && First(s, key, i) && key(s[i]) == key(s[j]) && usable(s[j]) :: usable(s[i])
  }

  /** Dropping duplicates before or after the usability filter gives the same list exactly when no
      unusable first candidate hides a usable one with its key. */
  lemma DedupCommutesIff<R(!new)>(s: seq<R>, key: R -> string, usable: R -> bool)
    ensures Resolved(s, key, usable) == UniqBy(Filter(s, usable), key) <==> FirstIsUsable(s, key, usable)
  {
    if FirstIsUsable(s, key, usable) {
      DedupCommutes(s, key, usable);
    }
    if Resolved(s, key, usable) == UniqBy(Filter(s, usable), key) {
      forall i, j | 0 <= i <= j < |s| && First(s, key, i) && key(s[i]) == key(s[j]) && usable(s[j])
        ensures usable(s[i])
      {
        FilterMembers(s, usable, s[j]);
        var f := Filter(s, usable);
        UniqByFacts(f, key);
        assert s[j] in f;
        assert HasKey(f, key, key(s[i]));
        var r := UniqBy(f, key);
        var k :| 0 <= k < |r| && key(r[k]) == key(s[i]);
        var ix := ResolvedPositions(s, key, usable);
        assert r[k] == s[ix[k]] && ix[k] in ix;
        assert ix[k] == i;
      }
    }
  }

  ghost predicate Commutes<R>(s: seq<R>, key: R -> string, usable: R -> bool) {
    Resolved(s, key, usable) == UniqBy(Filter(s, usable), key)
  }

  lemma {:induction false} DedupCommutes<R(!new)>(s: seq<R>, key: R -> string, usable: R -> bool)
    requires FirstIsUsable(s, key, usable)
    ensures Commutes(s, key, usable)
  {
    if s != [] {
      FirstIsUsableBefore(s, key, usable);
      DedupCommutes(s[..|s|-1], key, usable);
      if usable(s[|s|-1]) {
        SameKeysWhenUsable(s, key, usable);
      }
      DedupCommutesSnoc(s, key, usable);
    }
  }

  lemma DedupCommutesSnoc<R>(s: seq<R>, key: R -> string, usable: R -> bool)
    requires s != [] && Commutes(s[..|s|-1], key, usable)
    requires var before, x := s[..|s|-1], s[|s|-1];
             usable(x) ==> (HasKey(before, key, key(x)) <==> HasKey(Filter(before, usable), key, key(x)))
    ensures Commutes(s, key, usable)
  {
    var before, x := s[..|s|-1], s[|s|-1];
    assert s == before + [x];
    ResolvedSnoc(before, x, key, usable);
    FilterSnoc(before, x, usable);
    assert Filter(s, usable) == if usable(x) then Filter(before, usable) + [x] else Filter(before, usable);
    if usable(x) {
      UniqBySnoc(Filter(before, usable), x, key);
    }
  }

  lemma FirstIsUsableBefore<R>(s: seq<R>, key: R -> string, usable: R -> bool)
    requires s != [] && FirstIsUsable(s, key, usable)
    ensures FirstIsUsable(s[..|s|-1], key, usable)
  {
    var before := s[..|s|-1];
    forall i, j | 0 <= i <= j < |before| && First(before, key, i) && key(before[i]) == key(before[j]) && usable(before[j])
      ensures usable(before[i])
    {
      assert First(s, key, i);
      assert s[i] == before[i] && s[j] == before[j];
    }
  }

  lemma SameKeysWhenUsable<R(!new)>(s: seq<R>, key: R -> string, usable: R -> bool)
    requires s != [] && FirstIsUsable(s, key, usable) && usable(s[|s|-1])
    ensures HasKey(s[..|s|-1], key, key(s[|s|-1])) <==> HasKey(Filter(s[..|s|-1], usable), key, key(s[|s|-1]))
  {
    var before, x := s[..|s|-1], s[|s|-1];
    var f := Filter(before, usable);
    if HasKey(before, key, key(x)) {
      var i := FirstWithKey(before, key, key(x));
      assert First(s, key, i) && s[i] == before[i] && key(s[i]) == key(s[|s|-1]);
      FilterMembers(before, usable, before[i]);
      var k :| 0 <= k < |f| && f[k] == before[i];
    }
    if HasKey(f, key, key(x)) {
      var i :| 0 <= i < |f| && key(f[i]) == key(x);
      FilterMembers(before, usable, f[i]);
    }
  }

  lemma {:induction false} FirstWithKey<R>(s: seq<R>, key: R -> string, k: string) returns (i: nat)
    requires HasKey(s, key, k)
    ensures i < |s| && key(s[i]) == k && First(s, key, i)
  {
    i :| i < |s| && key(s[i]) == k;
    if !First(s, key, i) {
      var j :| 0 <= j < i && key(s[j]) == k;
      assert s[..i][j] == s[j];
      i := FirstWithKey(s[..i], key, k);
    }
  }

  // ----- selector terms -----

  /** Whatever a term selects is listed. */
  ghost predicate SelectsFrom<S(!new), R>(all: seq<R>, select: S -> seq<R>) {
    forall t :: Sublist(select(t), all)
  }

  ghost predicate Sublist<R>(part: seq<R>, all: seq<R>) {
    forall y | y in part :: y in all
  }

  lemma CandidatesAreCoherent<S(!new), R>(all: seq<R>, terms: seq<S>, select: S -> seq<R>, key: R -> string)
    requires UniqueBy(all, key) && SelectsFrom(all, select)
    ensures Coherent(FlatMap(terms, select), key)
  {
    var s := FlatMap(terms, select);
    forall x | x in s ensures x in all {
      FlatMapMembers(terms, select, x);
      var i :| 0 <= i < |terms| && x in select(terms[i]);
      assert Sublist(select(terms[i]), all);
    }
    forall i, j | 0 <= i < j < |s| && key(s[i]) == key(s[j]) ensures s[i] == s[j] {
      assert s[i] in all && s[j] in all;
    }
  }

  /** With unique keys in the listing, a resource is resolved exactly when it is usable and some
      term selects it: the order and the repetition of the terms have no part in it. */
  lemma ResolvedByTerms<S(!new), R(!new)>(all: seq<R>, terms: seq<S>, select: S -> seq<R>, key: R -> string, usable: R -> bool, x: R)
    requires UniqueBy(all, key) && SelectsFrom(all, select)
    ensures x in Resolved(FlatMap(terms, select), key, usable) <==> usable(x) && exists t | t in terms :: x in select(t)
  {
    CandidatesAreCoherent(all, terms, select, key);
    ResolvedMembers(FlatMap(terms, select), key, usable, x);
    FlatMapMembers(terms, select, x);
    if t :| t in terms && x in select(t) {
      var i :| 0 <= i < |terms| && terms[i] == t;
      assert x in select(terms[i]);
    }
  }

  /** Appending terms only extends the result, so its head, the one a VM is created with, stays. */
  lemma TermsAppend<S, R>(terms: seq<S>, extra: seq<S>, select: S -> seq<R>, key: R -> string, usable: R -> bool)
    ensures var before, after := Resolved(FlatMap(terms, select), key, usable), Resolved(FlatMap(terms + extra, select), key, usable);
            before <= after && (before != [] ==> after[0] == before[0])
  {
    FlatMapAppend(terms, extra, select);
    ResolvedAppend(FlatMap(terms, select), FlatMap(extra, select), key, usable);
  }

  // ----- when the order of the terms can matter -----

  ghost predicate SameMembers<R(!new)>(a: seq<R>, b: seq<R>) {
    forall x :: x in a <==> x in b
  }

  lemma EmptyTogether<R(!new)>(a: seq<R>, b: seq<R>)
    requires SameMembers(a, b)
    ensures a == [] <==> b == []
  {
    if a != [] { assert a[0] in b; }
    if b != [] { assert b[0] in a; }
  }

  /** `x` is the first element of `s` with its key. */
  ghost predicate Leads<R>(s: seq<R>, key: R -> string, x: R) {
    exists i: nat :: i < |s| && s[i] == x && First(s, key, i)
  }

  /** No two terms bring different first candidates for one key, of which one is usable. */
  ghost predicate LeadersAgree<S(!new), R(!new)>(select: S -> seq<R>, key: R -> string, usable: R -> bool) {
    forall s, t, x, y | Leads(select(s), key, x) && Leads(select(t), key, y) && key(x) == key(y) && usable(x) :: x == y
  }

  ghost predicate OrderCannotMatter<S(!new), R(!new)>(select: S -> seq<R>, key: R -> string, usable: R -> bool) {
    forall terms, other | SameMembers(terms, other) ::
      SameMembers(Resolved(FlatMap(terms, select), key, usable), Resolved(FlatMap(other, select), key, usable))
  }

  lemma ResolvedIffLeads<R(!new)>(s: seq<R>, key: R -> string, usable: R -> bool, x: R)
    ensures x in Resolved(s, key, usable) <==> Leads(s, key, x) && usable(x)
  {
    var ix := ResolvedPositions(s, key, usable);
    var r := Resolved(s, key, usable);
    if x in r {
      var a :| 0 <= a < |r| && r[a] == x;
      assert ix[a] in ix;
    }
    if Leads(s, key, x) && usable(x) {
      var i: nat :| i < |s| && s[i] == x && First(s, key, i);
      var a :| 0 <= a < |ix| && ix[a] == i;
      assert r[a] == x;
    }
  }

  lemma OneLeader<R>(s: seq<R>, key: R -> string, x: R, y: R)
    requires Leads(s, key, x) && Leads(s, key, y) && key(x) == key(y)
    ensures x == y
  {}

  lemma LeadsAppend<R>(a: seq<R>, b: seq<R>, key: R -> string, x: R)
    ensures Leads(a + b, key, x) <==> Leads(a, key, x) || (Leads(b, key, x) && !HasKey(a, key, key(x)))
  {
    var s := a + b;
    if Leads(s, key, x) {
      var i: nat :| i < |s| && s[i] == x && First(s, key, i);
      assert forall j | 0 <= j < |a| :: s[j] == a[j];
      if i < |a| {
        assert First(a, key, i);
      } else {
        assert forall j | 0 <= j < i - |a| :: b[j] == s[|a| + j];
        assert First(b, key, i - |a|);
      }
    }
    if Leads(a, key, x) {
      var i: nat :| i < |a| && a[i] == x && First(a, key, i);
      assert First(s, key, i);
    } else if Leads(b, key, x) && !HasKey(a, key, key(x)) {
      var i: nat :| i < |b| && b[i] == x && First(b, key, i);
      assert First(s, key, |a| + i);
    }
  }

  /** A leader of the candidates leads the contribution of one of the terms. */
  lemma {:induction false} LeaderOfSomeTerm<S, R>(terms: seq<S>, select: S -> seq<R>, key: R -> string, x: R)
    requires Leads(FlatMap(terms, select), key, x)
    ensures exists t | t in terms :: Leads(select(t), key, x)
  {
    var n := |terms| - 1;
    LeadsAppend(FlatMap(terms[..n], select), select(terms[n]), key, x);
    if Leads(select(terms[n]), key, x) {
      assert terms[n] in terms;
    } else {
      LeaderOfSomeTerm(terms[..n], select, key, x);
    }
  }

  /** Where a term has a candidate with the key, the candidates have a leader with it. */
  lemma LeaderForKey<S, R>(terms: seq<S>, select: S -> seq<R>, key: R -> string, t: S, x: R) returns (y: R)
    requires t in terms && x in select(t)
    ensures Leads(FlatMap(terms, select), key, y) && key(y) == key(x)
  {
    var s := FlatMap(terms, select);
    var n :| 0 <= n < |terms| && terms[n] == t;
    FlatMapMembers(terms, select, x);
    assert x in select(terms[n]);
    assert HasKey(s, key, key(x));
    var i := FirstWithKey(s, key, key(x));
    y := s[i];
  }

  lemma AgreeingLeadersResolveAlike<S(!new), R(!new)>(select: S -> seq<R>, key: R -> string, usable: R -> bool,
                                                      terms: seq<S>, other: seq<S>, x: R)
    requires LeadersAgree(select, key, usable) && SameMembers(terms, other)
    requires x in Resolved(FlatMap(terms, select), key, usable)
    ensures x in Resolved(FlatMap(other, select), key, usable)
  {
    ResolvedIffLeads(FlatMap(terms, select), key, usable, x);
    LeaderOfSomeTerm(terms, select, key, x);
    var t :| t in terms && Leads(select(t), key, x);
    var y := LeaderForKey(other, select, key, t, x);
    LeaderOfSomeTerm(other, select, key, y);
    ResolvedIffLeads(FlatMap(other, select), key, usable, x);
  }

  lemma FlatMapTwo<S, R>(s: S, t: S, select: S -> seq<R>)
    ensures FlatMap([s, t], select) == select(s) + select(t)
  {
    assert [s, t] == [s] + [t] && [s][..0] == [] && [t][..0] == [];
    FlatMapAppend([s], [t], select);
  }

  /** The order of the terms cannot matter exactly when the terms agree on their first candidates. */
  lemma OrderIff<S(!new), R(!new)>(select: S -> seq<R>, key: R -> string, usable: R -> bool)
    ensures OrderCannotMatter(select, key, usable) <==> LeadersAgree(select, key, usable)
  {
    if LeadersAgree(select, key, usable) {
      forall terms, other, x | SameMembers(terms, other)
        ensures x in Resolved(FlatMap(terms, select), key, usable) <==> x in Resolved(FlatMap(other, select), key, usable)
      {
        if x in Resolved(FlatMap(terms, select), key, usable) {
          AgreeingLeadersResolveAlike(select, key, usable, terms, other, x);
        }
        if x in Resolved(FlatMap(other, select), key, usable) {
          AgreeingLeadersResolveAlike(select, key, usable, other, terms, x);
        }
      }
    }
    if OrderCannotMatter(select, key, usable) {
      forall s, t, x, y | Leads(select(s), key, x) && Leads(select(t), key, y) && key(x) == key(y) && usable(x)
        ensures x == y
      {
        assert SameMembers([s, t], [t, s]);
        FlatMapTwo(s, t, select);
        FlatMapTwo(t, s, select);
        LeadsAppend(select(s), select(t), key, x);
        LeadsAppend(select(t), select(s), key, y);
        ResolvedIffLeads(select(s) + select(t), key, usable, x);
        ResolvedIffLeads(select(t) + select(s), key, usable, x);
        OneLeader(select(t) + select(s), key, x, y);
      }
    }
  }

  /** The leaders of a filtered listing. */
  lemma {:induction false} FilterLeads<R>(s: seq<R>, p: R -> bool, key: R -> string, x: R)
    ensures Leads(Filter(s, p), key, x) <==>
            exists i: nat :: i < |s| && s[i] == x && p(x) && forall j | 0 <= j < i && p(s[j]) :: key(s[j]) != key(x)
  {
    if s != [] {
      var n := |s| - 1;
      var before, last := s[..n], s[n];
      FilterLeads(before, p, key, x);
      LeadsAppend(Filter(before, p), if p(last) then [last] else [], key, x);
      assert Leads([last], key, x) <==> last == x by {
        if last == x { assert First([last], key, 0); }
      }
      assert forall j | 0 <= j < n :: before[j] == s[j];
      assert HasKey(Filter(before, p), key, key(x)) <==> exists j | 0 <= j < n :: p(s[j]) && key(s[j]) == key(x) by {
        var f := Filter(before, p);
        if HasKey(f, key, key(x)) {
          var k :| 0 <= k < |f| && key(f[k]) == key(x);
          FilterMembers(before, p, f[k]);
        }
        if j :| 0 <= j < n && p(s[j]) && key(s[j]) == key(x) {
          FilterMembers(before, p, before[j]);
          var k :| 0 <= k < |f| && f[k] == before[j];
        }
      }
    }
  }
}
