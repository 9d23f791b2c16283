/** The CloudStackNodeClass resource: its spec and status, its stored form and the input of its hash. */
module NodeClassApi {
  import opened Lists
  import opened Tags
  import opened Conditions
  import N = NetworkProvider
  import T = TemplateProvider
  import I = InstanceTypeProvider

  /** A missing optional field is None. */
  datatype Spec = Spec(
    zone: string, networkTerms: seq<N.Term>, offeringTerms: seq<I.Term>, templateTerms: seq<T.Term>,
    userData: Option<string>, tags: TagMap, rootDiskSize: Option<int>, diskOffering: Option<string>,
    sshKeyPair: Option<string>)

  datatype NetworkRef = NetworkRef(id: string, name: string, zone: string, kind: string)

  datatype TemplateRef = TemplateRef(id: string, name: string, osType: string, zone: string)

  datatype Status = Status(networks: seq<NetworkRef>, templates: seq<TemplateRef>, conditions: seq<Condition>)

  /** The object as the store holds it.  `version` changes with every write, `generation` with
      every change of the spec. */
  datatype Object = Object(generation: nat, version: nat, deleted: bool, spec: Spec, status: Status)

  // ----- the hash -----

  /** What the hash of a spec is computed from: the fields, with lists as unordered collections. */
  datatype HashInput = HashInput(
    zone: string, networkTerms: multiset<N.Term>, offeringTerms: multiset<I.Term>, templateTerms: multiset<T.Term>,
    userData: Option<string>, tags: TagMap, rootDiskSize: Option<int>, diskOffering: Option<string>,
    sshKeyPair: Option<string>)

  function Input(s: Spec): HashInput {
    HashInput(s.zone, multiset(s.networkTerms), multiset(s.offeringTerms), multiset(s.templateTerms),
              s.userData, s.tags, s.rootDiskSize, s.diskOffering, s.sshKeyPair)
  }

  /** The hash, for any hash function on such inputs. */
  function Hash(hash: HashInput -> string, s: Spec): string { hash(Input(s)) }

  /** The same terms, the same number of times each, in whatever order. */
  ghost predicate Reordered(a: Spec, b: Spec) {
    && multiset(a.networkTerms) == multiset(b.networkTerms)
    && multiset(a.offeringTerms) == multiset(b.offeringTerms)
    && multiset(a.templateTerms) == multiset(b.templateTerms)
    && a == b.(networkTerms := a.networkTerms, offeringTerms := a.offeringTerms, templateTerms := a.templateTerms)
  }
}
