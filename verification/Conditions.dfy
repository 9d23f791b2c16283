/** The status conditions of a CloudStackNodeClass: a list keyed by condition type. */
module Conditions {
  import opened Lists

  datatype ConditionStatus = True | False | Unknown

  datatype Condition = Condition(kind: string, status: ConditionStatus, reason: string, observed: nat, since: int)

  /** What GetCondition finds: the first condition of the type. */
  function Lookup(conditions: seq<Condition>, kind: string): Option<Condition>
    decreases |conditions|
  {
    if conditions == [] then None
    else if conditions[0].kind == kind then Some(conditions[0])
    else Lookup(conditions[1..], kind)
  }

  /** What SetCondition leaves: the first condition of the type is replaced where it stands; if
      there is none the condition is added at the end. */
  function With(conditions: seq<Condition>, c: Condition): seq<Condition>
    decreases |conditions|
  {
    if conditions == [] then [c]
    else if conditions[0].kind == c.kind then [c] + conditions[1..]
    else [conditions[0]] + With(conditions[1..], c)
  }

  // ----- a finite map that keeps its order -----

  function KindOf(): Condition -> string { (c: Condition) => c.kind }

  function Kinds(conditions: seq<Condition>): seq<string> { Map(conditions, KindOf()) }

  function WithAll(conditions: seq<Condition>, updates: seq<Condition>): seq<Condition> {
    if updates == [] then conditions
    else With(WithAll(conditions, updates[..|updates|-1]), updates[|updates|-1])
  }

  /** The last of the updates for the type, if there is one. */
  function LastSet(updates: seq<Condition>, kind: string): Option<Condition> {
    if updates == [] then None
    else if updates[|updates|-1].kind == kind then Some(updates[|updates|-1])
    else LastSet(updates[..|updates|-1], kind)
  }

  lemma {:induction false} LookupAfterWith(conditions: seq<Condition>, c: Condition, kind: string)
    ensures Lookup(With(conditions, c), kind) == if kind == c.kind then Some(c) else Lookup(conditions, kind)
  {
    if conditions != [] {
      LookupAfterWith(conditions[1..], c, kind);
    }
  }

  lemma {:induction false} KindsAfterWith(conditions: seq<Condition>, c: Condition)
    ensures Kinds(With(conditions, c)) == Kinds(conditions) + if Lookup(conditions, c.kind).Some? then [] else [c.kind]
  {
    if conditions != [] {
      KindsAfterWith(conditions[1..], c);
      assert Kinds(conditions) == [conditions[0].kind] + Kinds(conditions[1..]);
      if conditions[0].kind == c.kind {
        assert Kinds([c] + conditions[1..]) == [c.kind] + Kinds(conditions[1..]);
      } else {
        var rest := With(conditions[1..], c);
        assert Kinds([conditions[0]] + rest) == [conditions[0].kind] + Kinds(rest);
      }
    }
  }

  ghost predicate Distinct(kinds: seq<string>) {
    forall i, j | 0 <= i < j < |kinds| :: kinds[i] != kinds[j]
  }

  /** A lookup finds the first condition of the type. */
  lemma {:induction false} LookupFinds(conditions: seq<Condition>, kind: string)
    ensures forall c :: Lookup(conditions, kind) == Some(c) <==>
              exists i | 0 <= i < |conditions| ::
                conditions[i] == c && c.kind == kind && forall j | 0 <= j < i :: conditions[j].kind != kind
  {
    if conditions != [] && conditions[0].kind != kind {
      var rest := conditions[1..];
      LookupFinds(rest, kind);
      forall c ensures Lookup(conditions, kind) == Some(c) <==>
                 exists i | 0 <= i < |conditions| ::
                   conditions[i] == c && c.kind == kind && forall j | 0 <= j < i :: conditions[j].kind != kind
      {
        if i :| 0 <= i < |rest| && rest[i] == c && c.kind == kind && forall j | 0 <= j < i :: rest[j].kind != kind {
          assert conditions[i + 1] == c && forall j | 0 < j < i + 1 :: conditions[j] == rest[j - 1];
        }
        if i :| 0 <= i < |conditions| && conditions[i] == c && c.kind == kind && forall j | 0 <= j < i :: conditions[j].kind != kind {
          assert rest[i - 1] == c && forall j | 0 <= j < i - 1 :: rest[j] == conditions[j + 1];
        }
      }
    }
  }

  lemma {:induction false} LookupIffKind(conditions: seq<Condition>, kind: string)
    ensures Lookup(conditions, kind).Some? <==> kind in Kinds(conditions)
  {
    if conditions != [] {
      LookupIffKind(conditions[1..], kind);
      assert Kinds(conditions) == [conditions[0].kind] + Kinds(conditions[1..]);
    }
  }

  /** Any sequence of SetCondition calls behaves as a finite map: a lookup gives the last condition
      set for the type, or else the original one; the types stay where they were, new ones are
      added behind them, and types that are unique stay unique. */
  lemma {:induction false} WithAllIsMap(conditions: seq<Condition>, updates: seq<Condition>)
    ensures forall kind :: Lookup(WithAll(conditions, updates), kind) ==
              if LastSet(updates, kind).Some? then LastSet(updates, kind) else Lookup(conditions, kind)
    ensures Kinds(conditions) <= Kinds(WithAll(conditions, updates))
    ensures Distinct(Kinds(conditions)) ==> Distinct(Kinds(WithAll(conditions, updates)))
  {
    if updates != [] {
      var before, c := WithAll(conditions, updates[..|updates|-1]), updates[|updates|-1];
      WithAllIsMap(conditions, updates[..|updates|-1]);
      forall kind ensures Lookup(With(before, c), kind) == if kind == c.kind then Some(c) else Lookup(before, kind) {
        LookupAfterWith(before, c, kind);
      }
      KindsAfterWith(before, c);
      LookupIffKind(before, c.kind);
    }
  }
}
