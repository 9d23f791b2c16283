/** The generated deep copies of the CloudStackNodeClass spec and status, on the heap: slices are
    arrays, Go maps and pointers are objects, and nil is null. */
module DeepCopy {
  import opened Lists
  import opened Tags
  import Conditions
  import Api = NodeClassApi

  // ----- the mutable parts -----

  class Table {
    var entries: TagMap

    constructor (entries: TagMap)
      ensures this.entries == entries
    {
      this.entries := entries;
    }
  }

  class Cell<X> {
    var value: X

    constructor (value: X)
      ensures this.value == value
    {
      this.value := value;
    }
  }

  /** A selector term of any of the three kinds; only template terms use `osType`. */
  datatype Term = Term(tags: Table?, id: string, name: string, osType: string)

  // ----- their values -----

  datatype TermValue = TermValue(tags: Option<TagMap>, id: string, name: string, osType: string)

  ghost function TableValue(t: Table?): Option<TagMap>
    reads t
  {
    if t == null then None else Some(t.entries)
  }

  ghost function CellValue<X>(c: Cell?<X>): Option<X>
    reads c
  {
    if c == null then None else Some(c.value)
  }

  ghost function ArrayValue<X>(a: array?<X>): Option<seq<X>>
    reads a
  {
    if a == null then None else Some(a[..])
  }

  ghost function Tables(terms: seq<Term>): set<object> {
    set t | t in terms && t.tags != null :: t.tags
  }

  ghost function Value(t: Term): TermValue
    reads t.tags
  {
    TermValue(TableValue(t.tags), t.id, t.name, t.osType)
  }

  ghost function Values(terms: seq<Term>): seq<TermValue>
    reads Tables(terms)
  {
    seq(|terms|, i requires 0 <= i < |terms| reads Tables(terms) => Value(terms[i]))
  }

  ghost function TermTables(a: array?<Term>): set<object>
    reads a
  {
    if a == null then {} else Tables(a[..])
  }

  ghost function TermsValue(a: array?<Term>): Option<seq<TermValue>>
    reads a, TermTables(a)
  {
    if a == null then None else Some(Values(a[..]))
  }

  ghost function Only(o: object?): set<object> { if o == null then {} else {o} }

  // ----- copying -----

  method CopyTable(t: Table?) returns (c: Table?)
    ensures fresh(Only(c)) && TableValue(c) == TableValue(t)
  {
    c := null;
    if t != null {
      c := new Table(t.entries);
    }
  }

  method CopyCell<X>(p: Cell?<X>) returns (c: Cell?<X>)
    ensures fresh(Only(c)) && CellValue(c) == CellValue(p)
  {
    c := null;
    if p != null {
      c := new Cell(p.value);
    }
  }

  method CopyArray<X>(a: array?<X>) returns (c: array?<X>)
    ensures fresh(Only(c)) && ArrayValue(c) == ArrayValue(a)
  {
    c := null;
    if a != null {
      c := new X[a.Length](i requires 0 <= i < a.Length reads a => a[i]);
      assert c[..] == a[..];
    }
  }

  method CopyTerms(a: array?<Term>) returns (c: array?<Term>)
    ensures fresh(Only(c)) && fresh(TermTables(c)) && TermsValue(c) == TermsValue(a)
  {
    c := null;
    if a != null {
      c := new Term[a.Length](_ => Term(null, "", "", ""));
      for i := 0 to a.Length
        invariant fresh(c) && c.Length == a.Length
        invariant forall j | 0 <= j < i :: Copied(a[j], c[j]) && fresh(Only(c[j].tags))
      {
        var tags := CopyTable(a[i].tags);
        c[i] := Term(tags, a[i].id, a[i].name, a[i].osType);
      }
      assert forall j | 0 <= j < a.Length :: Value(c[..][j]) == Value(a[..][j]);
      assert Values(c[..]) == Values(a[..]);
    }
  }

  ghost predicate Copied(t: Term, c: Term)
    reads t.tags, c.tags
  {
    TableValue(c.tags) == TableValue(t.tags) && c.id == t.id && c.name == t.name && c.osType == t.osType
  }

  /** The selector term fields of a spec. */
  datatype Selectors = Selectors(networkTerms: array?<Term>, offeringTerms: array?<Term>, templateTerms: array?<Term>)

  ghost function SelectorsReach(s: Selectors): set<object>
    reads s.networkTerms, s.offeringTerms, s.templateTerms
  {
    Only(s.networkTerms) + TermTables(s.networkTerms) + Only(s.offeringTerms) + TermTables(s.offeringTerms)
    + Only(s.templateTerms) + TermTables(s.templateTerms)
  }

  datatype SelectorsValue = SelectorsValue(
    networkTerms: Option<seq<TermValue>>, offeringTerms: Option<seq<TermValue>>, templateTerms: Option<seq<TermValue>>)

  ghost function ValueOfSelectors(s: Selectors): SelectorsValue
    reads SelectorsReach(s)
  {
    SelectorsValue(TermsValue(s.networkTerms), TermsValue(s.offeringTerms), TermsValue(s.templateTerms))
  }

  /** What a term slice reaches is older than what is allocated from now on. */
  lemma TablesExist(a: array?<Term>)
    ensures forall o | o in TermTables(a) :: allocated(o)
  {
    assert a != null ==> forall i | 0 <= i < a.Length :: allocated(a[i].tags);
  }

  lemma SelectorsExist(s: Selectors)
    ensures forall o | o in TermTables(s.networkTerms) :: allocated(o)
    ensures forall o | o in TermTables(s.offeringTerms) :: allocated(o)
    ensures forall o | o in TermTables(s.templateTerms) :: allocated(o)
  {
    TablesExist(s.networkTerms);
    TablesExist(s.offeringTerms);
    TablesExist(s.templateTerms);
  }

  method CopySelectors(s: Selectors) returns (c: Selectors)
    ensures fresh(SelectorsReach(c)) && ValueOfSelectors(c) == old(ValueOfSelectors(s))
  {
    SelectorsExist(s);
    var networkTerms := CopyTerms(s.networkTerms);
    var offeringTerms := CopyTerms(s.offeringTerms);
    var templateTerms := CopyTerms(s.templateTerms);
    c := Selectors(networkTerms, offeringTerms, templateTerms);
  }

  /** The other fields of a spec that point somewhere. */
  datatype Options = Options(
    userData: Cell?<string>, tags: Table?, rootDiskSize: Cell?<int>, diskOffering: Cell?<string>, sshKeyPair: Cell?<string>)

  ghost function OptionsReach(o: Options): set<object> {
    Only(o.userData) + Only(o.tags) + Only(o.rootDiskSize) + Only(o.diskOffering) + Only(o.sshKeyPair)
  }

  datatype OptionsValue = OptionsValue(
    userData: Option<string>, tags: Option<TagMap>, rootDiskSize: Option<int>, diskOffering: Option<string>,
    sshKeyPair: Option<string>)

  ghost function ValueOfOptions(o: Options): OptionsValue
    reads OptionsReach(o)
  {
    OptionsValue(CellValue(o.userData), TableValue(o.tags), CellValue(o.rootDiskSize), CellValue(o.diskOffering),
                 CellValue(o.sshKeyPair))
  }

  method CopyOptions(o: Options) returns (c: Options)
    ensures fresh(OptionsReach(c)) && ValueOfOptions(c) == ValueOfOptions(o)
  {
    var userData := CopyCell(o.userData);
    var tags := CopyTable(o.tags);
    var rootDiskSize := CopyCell(o.rootDiskSize);
    var diskOffering := CopyCell(o.diskOffering);
    var sshKeyPair := CopyCell(o.sshKeyPair);
    c := Options(userData, tags, rootDiskSize, diskOffering, sshKeyPair);
  }

  class Spec {
    var zone: string
    var selectors: Selectors
    var options: Options

    /** Everything that can be changed through this spec, besides its own fields. */
    ghost function Reach(): set<object>
      reads this, selectors.networkTerms, selectors.offeringTerms, selectors.templateTerms
    {
      SelectorsReach(selectors) + OptionsReach(options)
    }

    ghost function Value(): (string, SelectorsValue, OptionsValue)
      reads this, Reach()
    {
      (zone, ValueOfSelectors(selectors), ValueOfOptions(options))
    }

    constructor (zone: string, selectors: Selectors, options: Options)
      ensures this.zone == zone && this.selectors == selectors && this.options == options
    {
      this.zone, this.selectors, this.options := zone, selectors, options;
    }

    /** What a spec reaches is older than what is allocated from now on. */
    lemma ReachExists()
      ensures forall o | o in Reach() :: allocated(o)
    {
      SelectorsExist(selectors);
    }

    method CopyParts() returns (newSelectors: Selectors, newOptions: Options)
      ensures fresh(SelectorsReach(newSelectors)) && fresh(OptionsReach(newOptions))
      ensures ValueOfSelectors(newSelectors) == old(ValueOfSelectors(selectors))
      ensures ValueOfOptions(newOptions) == old(ValueOfOptions(options))
    {
      SelectorsExist(selectors);
      newOptions := CopyOptions(options);
      newSelectors := CopySelectors(selectors);
    }

    method SetParts(newZone: string, newSelectors: Selectors, newOptions: Options)
      requires this !in SelectorsReach(newSelectors) + OptionsReach(newOptions)
      modifies this
      ensures Value() == old((newZone, ValueOfSelectors(newSelectors), ValueOfOptions(newOptions)))
      ensures Reach() == old(SelectorsReach(newSelectors) + OptionsReach(newOptions))
    {
      zone, selectors, options := newZone, newSelectors, newOptions;
      assert SelectorsReach(newSelectors) == old(SelectorsReach(newSelectors));
      assert ValueOfSelectors(newSelectors) == old(ValueOfSelectors(newSelectors));
    }

    method DeepCopyInto(out: Spec)
      modifies out
      ensures fresh(out.Reach())
      ensures out != this ==> out.Value() == old(Value()) && unchanged(this)
    {
      var newSelectors, newOptions := CopyParts();
      out.SetParts(zone, newSelectors, newOptions);
    }

    method DeepCopy() returns (out: Spec)
      ensures fresh(out) && fresh(out.Reach()) && out.Value() == old(Value())
    {
      ReachExists();
      out := new Spec("", Selectors(null, null, null), Options(null, null, null, null, null));
      DeepCopyInto(out);
    }
  }

  /** Anything may happen to a spec and to what it reaches. */
  method ChangeSpec(s: Spec, another: Spec)
    modifies s, s.Reach()
  {
    s.zone := another.zone;
    if s.options.tags != null && another.options.tags != null {
      s.options.tags.entries := another.options.tags.entries;
    }
  }

  /** Whatever is done to a deep copy, the original keeps its value. */
  method CopiesAreApart(s: Spec, another: Spec)
    ensures s.Value() == old(s.Value())
  {
    s.ReachExists();
    var copy := s.DeepCopy();
    ChangeSpec(copy, another);
  }

  // ----- the status -----

  datatype OfferingRef = OfferingRef(id: string, name: string, cpuNumber: int, cpuSpeed: int, memory: int, networkRate: int)

  datatype StatusValue = StatusValue(
    networks: Option<seq<Api.NetworkRef>>, offerings: Option<seq<OfferingRef>>, templates: Option<seq<Api.TemplateRef>>,
    conditions: Option<seq<Conditions.Condition>>)

  /** The zero values of Go; Unknown stands for the empty condition status. */
  const NO_NETWORK := Api.NetworkRef("", "", "", "")
  const NO_OFFERING := OfferingRef("", "", 0, 0, 0, 0)
  const NO_TEMPLATE := Api.TemplateRef("", "", "", "")
  const NO_CONDITION := Conditions.Condition("", Conditions.Unknown, "", 0, 0)

  function Blank<X>(s: Option<seq<X>>, zero: X): Option<seq<X>> {
    if s.None? then None else Some(seq(|s.value|, _ => zero))
  }

  /** A status of the same shape without contents. */
  function BlankStatus(s: StatusValue): StatusValue {
    StatusValue(Blank(s.networks, NO_NETWORK), Blank(s.offerings, NO_OFFERING), Blank(s.templates, NO_TEMPLATE),
                Blank(s.conditions, NO_CONDITION))
  }

  /** make: a new slice of the same length, nil for nil. */
  method MakeLike<X>(a: array?<X>, zero: X) returns (c: array?<X>)
    ensures fresh(Only(c)) && ArrayValue(c) == Blank(ArrayValue(a), zero)
    ensures (c == null <==> a == null) && (a != null ==> c.Length == a.Length)
  {
    c := null;
    if a != null {
      c := new X[a.Length](_ => zero);
      assert c[..] == seq(a.Length, _ => zero);
    }
  }

  /** copy: into a slice of the same length, possibly the same one. */
  method Fill<X>(out: array?<X>, a: array?<X>)
    requires (out == null <==> a == null) && (a != null ==> out.Length == a.Length)
    modifies Only(out)
    ensures ArrayValue(out) == old(ArrayValue(a))
  {
    if a != null {
      forall i | 0 <= i < a.Length {
        out[i] := a[i];
      }
      assert out[..] == old(a[..]);
    }
  }

  class Status {
    var networks: array?<Api.NetworkRef>
    var offerings: array?<OfferingRef>
    var templates: array?<Api.TemplateRef>
    var conditions: array?<Conditions.Condition>

    ghost function Reach(): set<object>
      reads this
    {
      Only(networks) + Only(offerings) + Only(templates) + Only(conditions)
    }

    ghost function Value(): StatusValue
      reads this, Reach()
    {
      StatusValue(ArrayValue(networks), ArrayValue(offerings), ArrayValue(templates), ArrayValue(conditions))
    }

    constructor ()
      ensures fresh(Reach())
    {
      networks, offerings, templates, conditions := null, null, null, null;
    }

    /** One field: the slice is made, and then filled from what the field of `this` holds by then. */
    method CopyNetworks(out: Status)
      modifies out`networks
      ensures fresh(Only(out.networks))
      ensures ArrayValue(out.networks) == if out == this then Blank(old(ArrayValue(networks)), NO_NETWORK) else old(ArrayValue(networks))
    {
      out.networks := MakeLike(networks, NO_NETWORK);
      Fill(out.networks, networks);
    }

    method CopyOfferings(out: Status)
      modifies out`offerings
      ensures fresh(Only(out.offerings))
      ensures ArrayValue(out.offerings) == if out == this then Blank(old(ArrayValue(offerings)), NO_OFFERING) else old(ArrayValue(offerings))
    {
      out.offerings := MakeLike(offerings, NO_OFFERING);
      Fill(out.offerings, offerings);
    }

    method CopyTemplates(out: Status)
      modifies out`templates
      ensures fresh(Only(out.templates))
      ensures ArrayValue(out.templates) == if out == this then Blank(old(ArrayValue(templates)), NO_TEMPLATE) else old(ArrayValue(templates))
    {
      out.templates := MakeLike(templates, NO_TEMPLATE);
      Fill(out.templates, templates);
    }

    method CopyConditions(out: Status)
      modifies out`conditions
      ensures fresh(Only(out.conditions))
      ensures ArrayValue(out.conditions) == if out == this then Blank(old(ArrayValue(conditions)), NO_CONDITION) else old(ArrayValue(conditions))
    {
      out.conditions := MakeLike(conditions, NO_CONDITION);
      Fill(out.conditions, conditions);
    }

    /** The generated code reads a field of its own after it has assigned that of `out`: a status copied
        into itself loses its contents. */
    method DeepCopyInto(out: Status)
      modifies out
      ensures fresh(out.Reach())
      ensures out.Value() == if out == this then BlankStatus(old(Value())) else old(Value())
      ensures out != this ==> unchanged(this) && Value() == old(Value())
    {
      CopyNetworks(out);
      CopyOfferings(out);
      CopyTemplates(out);
      CopyConditions(out);
    }

    method DeepCopy() returns (out: Status)
      ensures fresh(out) && fresh(out.Reach()) && out.Value() == Value()
    {
      out := new Status();
      DeepCopyInto(out);
    }
  }
}
