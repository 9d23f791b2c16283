# Verified model of the CloudStack provider for Karpenter

The provider lets Karpenter run nodes as CloudStack virtual machines. A CloudStackNodeClass describes
which networks, templates and service offerings to use; a controller resolves it and records whether it
is ready; the cloud provider creates, reads, lists and deletes VMs and reports drift. The providers ask
the CloudStack API through expiring caches shared by concurrent callers.

This project models that behaviour in Dafny and proves what it guarantees, over every input, every run
or every interleaving. `dafny verify dfyconfig.toml` checks all of it.

## How the model is built

* **Lists, Slices, Tags, TtlCache, Resolution** hold what several providers share: first match, stable filter and
  keep-first uniqueness; Go slices with their backing arrays; tag matching; the expiring map; the treatment of
  resolved candidates and of selector terms.
* **NetworkProvider, TemplateProvider, InstanceTypeProvider** are the listings and the selector terms. The
  loops of the code are methods on a class with a cache field, each proved equal to a function; the laws
  are lemmas about the function. A cached template listing is a slice that its readers share.
* **ListCache** is the protocol by which listings are cached (look, lock, look again, ask, store, unlock) as a
  state machine: any number of calls, a mutex, a clock, a changing world and the eviction of expired
  entries. A fetch may take several API calls, each answered at its own moment. **InstanceCache** is the unlocked
  cache of single instances, with Get and Delete interleaved; **InstanceBridge** ties it to the methods.
* **Conditions, NodeClassApi, NodeClassController, NodeClassRuns** are the status conditions, the resource and
  its hash input, the controller and store as classes, and the controller as a state machine that
  interleaves reconciliations with user edits.
* **InstanceProvider, InstanceRuns** are the VM operations as methods on a cloud, a cache and the resolvers, and
  sequential runs of them next to other tenants. **ProviderId, CloudProvider** are provider ids, creation, reading
  and deletion of NodeClaims from the NodeClass and the listings of its zone down to the VM, ownership read back
  from tags, and drift. **DeepCopy** is the generated copying, on the heap.

What CloudStack, Kubernetes or the clock answers is a parameter. Stated assumptions: a cache entry is served
while `now <= set time + TTL` and only expired entries are evicted; VM ids are never reused; a successful
destruction removes the VM and destroying a missing VM is refused; nobody else tags the provider's VMs; the cloud
reports a VM's zone and template by the names they were chosen by; a status update is accepted only if the object
is unchanged since it was read; marking an object for deletion starts a new generation; the hash of a spec is some
function of its fields with lists taken as unordered collections, an absent optional field being different from one
that is present and empty; a fetch may be given up at any point.

## Findings

Places where the code does something else than its comments or a reader would expect. Each is a lemma.

* The fields of a selector term are documented as ANDed (`pkg/apis/v1/cloudstacknodeclass.go:83-84`, `:103`, `:122`).
  The code falls back from id to name to tags. On every listing with unique ids and names the two readings agree
  exactly for network terms that set one field, for template terms that set the id alone, the name alone or any tags
  and OS type, and for service offering terms that set the id alone or the name alone: `NetworkProvider.DocumentedIff`,
  `TemplateProvider.DocumentedIff`, `InstanceTypeProvider.DocumentedIff`.
* So a service offering term with tags and nothing else, which the documentation offers, selects nothing.
* Where ids repeat in a network listing, the order of the terms can decide which networks are resolved, and whether
  any are: exactly where a usable network has a rival with its id that some term reaches first: `OrderIrrelevantIff`.
* A service offering is chosen by its id or name and then deployed by its name. The VM gets the offering that was
  chosen exactly when no other listed before it has that name: `ChosenOfferingIsUsedIff`.
* A template listing whose three API calls all fail is an empty answer that is cached for a whole TTL, not a
  failure: `EmptyListingIff`.
* A Get that saw a VM before a Delete may cache it after the Delete has returned. Such an entry is served at
  most one TTL and the Get's own delay after the destruction, that bound is reached, and it arises exactly when
  another call that saw the VM has yet to store it: `StaleHitsAreBounded`, `TheBoundIsReached`,
  `DeleteIsFinalIff`.
* Deleting a VM that is already gone succeeds exactly when no live cache entry vouches for it; otherwise it
  fails until the entry expires: `DeleteOfAbsentIff`, `LostVMCannotBeDeleted`.
* A VM whose creation failed after deployment, or whose tagging was refused, is never listed and so never
  cleaned up: `CreatedIsShownIff`.
* Ready=True says nothing about a spec edited since: `EditLeavesReady`. Create looks at the status of Ready only and
  orders a VM from the edited spec: `EditedIsStillCreated`.
* NodeClaims built by Get and List carry no hash annotation, so they look drifted wherever their pool leads to a
  NodeClass, right after a Create too: `ReadClaimsLookDriftedIff`, `GetMakesItLookDrifted`.
* A status deep-copied into itself loses its contents: `Status.DeepCopyInto`.

## Model

| member | source | states |
|---|---|---|
| ListCache.MutualExclusion | pkg/providers/network/network.go:73-78 | in every interleaving of any number of callers at most one call is between taking the lock and releasing it |
| ListCache.MissMeansExpired | pkg/providers/network/network.go:76-79 | a miss under the lock means that every fetch stored for the key has expired |
| ListCache.FetchesAreSpaced | pkg/providers/template/template.go:68-142 | two fetches stored under one key lie more than a TTL apart in every run |
| ListCache.FetchRate | pkg/operator/operator.go:35 | any stretch of time of length T sees at most T / TTL + 1 stored fetches per key, however many callers there are |
| ListCache.HourlyRate | pkg/operator/operator.go:35 | with a TTL of fifteen minutes any hour sees at most five stored fetches per key |
| ListCache.RepliesRefineAsking | pkg/providers/network/network.go:65-125 | every reply is the caller's view of a listing built from the API calls of one fetch, each answered as the API would have at that moment, stored at most one TTL before the reply |
| ListCache.OneCallIsOneMoment | pkg/providers/zone/zone.go:62-104 | where a listing takes one call, every reply is a view of what the API would have answered at one moment, at most one TTL and one fetch earlier |
| ListCache.NoDeadlock | pkg/providers/network/network.go:73-124 | while a call is unfinished some call can step closer to returning, leaving the others alone; error paths release the lock |
| ListCache.AloneIsReadThrough | pkg/providers/network/network.go:65-125 | a call nobody interferes with, whatever API calls it makes, is the sequential read through the cache that the List methods implement; failures are not stored |
| InstanceTypeProvider.EveryCallerFiltersForItself | pkg/providers/instancetype/instancetype.go:95-129 | whichever caller filled the cache, each result is the caller's own choice from one recent API answer |
| InstanceTypeProvider.Provider.ResolveServiceOfferings | pkg/providers/instancetype/instancetype.go:95-129 | caches the whole answer and filters what is read by the caller's terms |
| InstanceTypeProvider.ZonesAreApart | pkg/providers/instancetype/instancetype.go:97 | resolving for one zone never changes what is resolved for another |
| InstanceTypeProvider.FilterServiceOfferings | pkg/providers/instancetype/instancetype.go:132-169 | the loop computes the function whose laws follow |
| InstanceTypeProvider.SelectMeaning | pkg/providers/instancetype/instancetype.go:136-160 | a listed id decides alone, then a listed name; tags never select |
| InstanceTypeProvider.ChosenIff | pkg/providers/instancetype/instancetype.go:163-168 | the result is exactly the first selected offering of every id, in term order |
| InstanceTypeProvider.AppendKeepsChoices | pkg/providers/instancetype/instancetype.go:132-169 | appending terms only extends the result, and its head stays |
| InstanceTypeProvider.Provider.List | pkg/providers/instancetype/instancetype.go:60-76 | one instance type per first offering of every id among those the terms select, in order, each with that offering's name, through the cache |
| InstanceTypeProvider.DocumentedIff | pkg/apis/v1/cloudstacknodeclass.go:102-119 | the code agrees with the documented AND, on all listings with unique ids and names and all tags of offerings, exactly for the id alone or the name alone |
| InstanceTypeProvider.DocumentedChoice | pkg/apis/v1/cloudstacknodeclass.go:41-46 | such terms choose the documented OR of their requirements |
| InstanceCache.StaleHitsAreBounded | pkg/providers/instance/instance.go:186-213 | what the cache serves is an answer the API gave, and a destroyed VM is served only within TTL plus the longest delay from API answer to cache |
| InstanceCache.TheBoundIsReached | pkg/providers/instance/instance.go:247-276 | for every VM and delay a run serves the VM at the very end of that time, after a Delete that has succeeded |
| InstanceCache.DeleteIsFinalIff | pkg/providers/instance/instance.go:269-271 | after a Delete clears the entry the VM can be served again exactly when another call that saw it has yet to store it |
| InstanceCache.ForgottenStays | pkg/providers/instance/instance.go:186-213 | a VM that is gone, not cached and not in flight is never served again in any run |
| InstanceBridge.AloneIsGot | pkg/providers/instance/instance.go:186-213 | a Get that nobody interferes with ends, in the state machine, with the reply of the method Get, the instance included, and with its cache |
| InstanceBridge.AloneIsRemoved | pkg/providers/instance/instance.go:247-276 | so does a Delete, with the reply, the cloud and the cache of the method Delete |
| Tags.MatchTags | pkg/providers/network/network.go:208-220 | the loop decides the universally quantified match with wildcard, for every iteration order of the map |
| Tags.GetTags | pkg/providers/instance/instance.go:361-377 | the loop builds the map in which the last value of a key counts |
| Tags.LastPairCounts | pkg/providers/instance/instance.go:371-374 | the map has exactly the keys listed, each with its last value |
| Tags.ListingRoundTrip | pkg/providers/instance/instance.go:349-377 | reading back a listing of a tag map, in any order, gives that map |
| Resolution.ResolvedIff | pkg/providers/network/network.go:168-176 | keep-first uniqueness and filter compute the one list of first usable occurrences in order |
| Resolution.ResolvedAppend | pkg/providers/network/network.go:168-176 | more candidates at the end only extend the result |
| Resolution.DedupCommutesIff | pkg/providers/template/template.go:196-204 | deduplication and the usability filter commute exactly when no unusable first candidate hides a usable one |
| Resolution.ResolvedByTerms | pkg/providers/template/template.go:153-204 | with unique ids a resource is resolved exactly when it is usable and some term selects it |
| Resolution.OrderIff | pkg/providers/network/network.go:136-176 | whatever the selector, the order of the terms has no part in what is resolved exactly when terms agree on their first candidates |
| Slices.Push | pkg/providers/template/template.go:160 | append writes into the shared array while there is room, and into a new one otherwise |
| Slices.UniqOf | pkg/providers/template/template.go:132-134 | the loop keeps the first element of every key, in an array of its own |
| NetworkProvider.Provider.List | pkg/providers/network/network.go:65-125 | listing with tags, empty tags where they cannot be read, through the cache; nothing stored on failure |
| NetworkProvider.Provider.ResolveNetworks | pkg/providers/network/network.go:128-185 | the loops compute the resolution; an error exactly when listing fails or nothing usable is selected |
| NetworkProvider.SelectMeaning | pkg/providers/network/network.go:136-166 | first network with a listed id, else first with a listed name, else exactly those matching the tags |
| NetworkProvider.AnsweredIff | pkg/providers/network/network.go:128-185 | a caller gets exactly the list of first candidates per id, in order, that are Implemented or Setup; an error exactly if that is empty, another exactly if there is no listing |
| NetworkProvider.ResolveBy | pkg/providers/network/network.go:136-176 | with unique ids, exactly the networks that some term selects and that are Implemented or Setup |
| NetworkProvider.ZonesAreApart | pkg/providers/network/network.go:66 | listing one zone never changes what listing another answers |
| NetworkProvider.AppendKeepsChoices | pkg/providers/network/network.go:136-182 | appending terms only extends the result, and its head stays |
| NetworkProvider.OrderIrrelevantIff | pkg/providers/network/network.go:136-182 | for any listing, the order of the terms has no part in which networks are resolved exactly when no usable network has a rival with its id that its id, its name or its tags can bring first |
| NetworkProvider.OrderIrrelevant | pkg/providers/network/network.go:136-182 | with unique ids, terms equal as sets resolve the same networks and fail alike |
| NetworkProvider.HeadMayChange | pkg/providers/instance/instance.go:110 | the order of terms may still change which network is first |
| NetworkProvider.RepeatedIdsMatter | pkg/providers/network/network.go:168-180 | with a repeated id the order decides whether anything is resolved |
| NetworkProvider.DocumentedIff | pkg/apis/v1/cloudstacknodeclass.go:83-100 | the fallback agrees with the documented AND on all listings with unique ids and names exactly for terms of one field |
| NetworkProvider.DocumentedAnyNamesIff | pkg/apis/v1/cloudstacknodeclass.go:83-100 | where names may repeat, exactly for terms with only an id or only tags |
| NetworkProvider.DocumentedResolve | pkg/apis/v1/cloudstacknodeclass.go:34-39 | terms of one field each resolve to the documented OR, restricted to usable networks |
| NetworkProvider.StillWorldIsFetched | pkg/providers/network/network.go:81-117 | the API calls List makes in a world that stands still build the listing that the method List fetches |
| NetworkProvider.ListingsAreRecentPieces | pkg/providers/network/network.go:65-133 | in every interleaving a caller's terms are resolved in a listing of the caller's own zone, with every field of every network as the API listed it, and its tags or none, all true of the API during one fetch, at most one TTL before |
| TemplateProvider.Provider.List | pkg/providers/template/template.go:68-142 | the union of three listings without repeated ids, through the cache; the caller gets the cached slice itself; all cached listings keep unique ids |
| TemplateProvider.Provider.AddAnswer | pkg/providers/template/template.go:105-128 | the inner loop appends one answer with the tags of every template |
| TemplateProvider.Provider.ResolveTemplates | pkg/providers/template/template.go:145-213 | the loops compute the resolution; an error exactly when listing fails or nothing usable is selected; the appends write to no cached array and the result has its own |
| TemplateProvider.ListingIff | pkg/providers/template/template.go:92-134 | the listing keeps the first template per id of the answers in featured, community, self order; a failing filter takes away only its own |
| TemplateProvider.EmptyListingIff | pkg/providers/template/template.go:99-137 | an empty listing is stored exactly when every filter failed or answered nothing |
| TemplateProvider.SelectMeaning | pkg/providers/template/template.go:153-194 | first template with a listed id, else with a listed name, else exactly those matching both tags and OS type |
| TemplateProvider.AnsweredIff | pkg/providers/template/template.go:145-213 | a caller gets exactly the list of first candidates per id, in order, that are ready and completely downloaded; an error exactly if that is empty, another exactly if there is no listing |
| TemplateProvider.ResolveBy | pkg/providers/template/template.go:153-204 | with unique ids, exactly the templates that some term selects and that are ready and completely downloaded |
| TemplateProvider.ZonesAreApart | pkg/providers/template/template.go:69 | listing one zone never changes what listing another answers |
| TemplateProvider.AppendKeepsChoices | pkg/providers/template/template.go:153-204 | appending terms only extends the result, and its head stays |
| TemplateProvider.OrderIrrelevant | pkg/providers/template/template.go:131-134 | terms equal as sets resolve the same templates and fail alike, given the unique ids List delivers |
| TemplateProvider.DocumentedIff | pkg/apis/v1/cloudstacknodeclass.go:121-142 | the fallback agrees with the documented AND exactly for the id alone, the name alone, or any tags and OS type |
| TemplateProvider.DocumentedResolve | pkg/apis/v1/cloudstacknodeclass.go:48-53 | such terms resolve to the documented OR, restricted to usable templates |
| TemplateProvider.StillWorldIsFetched | pkg/providers/template/template.go:84-134 | the API calls List makes in a world that stands still build the listing that the method List fetches |
| TemplateProvider.ListingsAreRecentPieces | pkg/providers/template/template.go:68-149 | in every interleaving a caller's terms are resolved in a listing of the caller's own zone, made, without repeated ids, of what the three filters brought, field by field, with tags or none, all true of the API during one fetch, at most one TTL before |
| Conditions.WithAllIsMap | pkg/apis/v1/cloudstacknodeclass.go:258-277 | any sequence of SetCondition calls is a finite map: last value per type, places kept, unique types stay unique |
| Conditions.KindsAfterWith | pkg/apis/v1/cloudstacknodeclass.go:268-277 | a condition type is added at the end only if it was missing |
| Conditions.LookupFinds | pkg/apis/v1/cloudstacknodeclass.go:259-266 | a lookup finds a condition exactly if it is the first of its type |
| NodeClassController.NodeClass.GetCondition | pkg/apis/v1/cloudstacknodeclass.go:259-266 | the loop finds the first condition of the type |
| NodeClassController.NodeClass.SetCondition | pkg/apis/v1/cloudstacknodeclass.go:269-277 | the loop replaces in place or appends, as the map laws assume |
| NodeClassController.SetReady | pkg/controllers/nodeclass/controller.go:165-170 | stamps time and the generation of the copy, changing nothing but the conditions |
| NodeClassController.Reconcile | pkg/controllers/nodeclass/controller.go:71-162 | the stored object and the outcome of a whole reconciliation, for every answer of the providers and the store, failing reads and writes included |
| NodeClassController.ReconcileMeans | pkg/controllers/nodeclass/controller.go:86-162 | by the first thing that is wrong, zone, networks or templates: the reason and the delay, with the lists kept; else Ready=True and an entry with id, name, zone and type for every network and template of the resolution |
| NodeClassController.ReconcileLeavesAlone | pkg/controllers/nodeclass/controller.go:78-84 | a failing read is an error; an object that is gone or being deleted is left alone; a failing write is an error only where the lists resolved |
| NodeClassRuns.ReadyMeansResolved | pkg/controllers/nodeclass/controller.go:71-162 | in every run the stored lists have, in order, an entry with the id, name, zone and type of every network and template that one generation's spec resolves to, against the answers given to the one reconciliation that landed last with lists; never empty, the zone found; a stored Ready=True observed exactly that generation; failures keep lists but never with Ready=True |
| NodeClassRuns.WritesAreCurrent | pkg/controllers/nodeclass/controller.go:152-154 | a status write that lands speaks for the spec stored at that moment and changes only the status |
| NodeClassRuns.ObservedNeverGoesBack | pkg/controllers/nodeclass/controller.go:165-170 | the observed generation of the Ready condition never decreases, however reconciliations overlap |
| NodeClassRuns.EditLeavesReady | pkg/cloudprovider/cloudprovider.go:75-79 | an edit leaves the condition in place, now for an older generation |
| NodeClassRuns.AloneIsReconcile | pkg/controllers/nodeclass/controller.go:71-162 | the staged reconciliation run by itself is what Reconcile does |
| InstanceProvider.Provider.BuildTags | pkg/providers/instance/instance.go:327-346 | the provider's tags overlaid by the user's, in any iteration order |
| InstanceProvider.Provider.WaitForVMState | pkg/providers/instance/instance.go:293-324 | follows the polls until one decides |
| InstanceRuns.WaitedIff | pkg/providers/instance/instance.go:299-323 | success exactly when a poll shows the target state and all before it show another |
| InstanceProvider.Provider.Create | pkg/providers/instance/instance.go:87-183 | the cloud, the result and the resolvers' caches for every combination of answers, the network and the template being resolved from the spec through the caches; a refused tagging does not fail the call |
| InstanceProvider.Provider.Get | pkg/providers/instance/instance.go:186-213 | cache hit, failed query, not found, or found and cached |
| InstanceProvider.Provider.List | pkg/providers/instance/instance.go:216-244 | fails if the VMs cannot be listed; else the loop lists the VMs whose tags can be read and carry the managed-by key |
| InstanceProvider.Provider.Delete | pkg/providers/instance/instance.go:247-276 | cloud, cache and result for every combination of answers |
| InstanceRuns.CreateSucceedsIff | pkg/providers/instance/instance.go:87-183 | Create succeeds exactly when the listings resolve, the zone and the offering are known, deployment is accepted and the VM comes to run, whatever else the cloud holds |
| InstanceRuns.CreatedFacts | pkg/providers/instance/instance.go:159-183 | Create is about one new VM: untagged if it failed, tagged with the owner's tags unless tagging was refused |
| InstanceRuns.CreatedTagsMean | pkg/providers/instance/instance.go:327-346 | under every key a new VM has what the user set, or else one of the provider's five tags with their names and values written out, and nothing more |
| InstanceRuns.CreatedFromFirstChoices | pkg/providers/instance/instance.go:90-136 | the VM, named for the claim, is on the first network and from the first template of the one lists of first usable candidates that the spec's terms have in the listings, in the spec's zone, with the first instance type and the offering known by its name |
| InstanceRuns.AppendedTermsAreIgnored | pkg/providers/instance/instance.go:90-126 | where each list resolves to something, terms and instance types added at the end leave the cloud and the result of Create the same |
| InstanceRuns.GetFindsCreated | pkg/providers/instance/instance.go:178-213 | a Get that reaches the API finds the very instance Create returned |
| InstanceRuns.GetFindsListed | pkg/providers/instance/instance.go:186-244 | a Get that reaches the API finds every VM that List shows, as List shows it |
| InstanceRuns.GetMeans | pkg/providers/instance/instance.go:193-212 | a Get that asks finds the VM field by field, with its tags if they can be read, and caches that |
| InstanceRuns.GetWithoutVM | pkg/providers/instance/instance.go:188-205 | a live entry is the reply; else a failed query or a missing VM is, and nothing is cached |
| InstanceRuns.GetIsStable | pkg/providers/instance/instance.go:188-191 | in every run, after a Get found an instance, every Get within one TTL replies with that very instance, whatever happens to the VM or fails, while no Delete of it goes through |
| InstanceRuns.ListMeans | pkg/providers/instance/instance.go:225-239 | List shows, field by field and with their tags, exactly the VMs whose tags can be read and have karpenter.sh/managed-by |
| InstanceRuns.ListIsManagedVMs | pkg/providers/instance/instance.go:225-239 | with readable tags List shows exactly the existing VMs that carry the managed-by key |
| InstanceRuns.UnreadableIsHidden | pkg/providers/instance/instance.go:228-232 | an unreadable tag listing hides that VM and no other |
| InstanceRuns.CreatedIsShownIff | pkg/providers/instance/instance.go:159-244 | in every later run the VM of a Create is listed exactly while it exists, if Create succeeded and tagging was accepted |
| InstanceRuns.FailedCreateLeavesAtMostOne | pkg/providers/instance/instance.go:160-169 | a failed Create adds at most one VM, untagged, and changes nothing else |
| InstanceRuns.DeleteSucceeds | pkg/providers/instance/instance.go:247-276 | a nil Delete leaves no VM and no live entry, touches nothing else, and a second one needs no destruction |
| InstanceRuns.DeleteIff | pkg/providers/instance/instance.go:247-276 | Delete succeeds exactly if the VM was found and could be destroyed, or the query found none; it says which step failed, and then the cloud is unchanged |
| InstanceRuns.DeleteOfAbsentIff | pkg/providers/instance/instance.go:250-258 | deleting an absent VM succeeds exactly when the query works and no live cache entry remains |
| InstanceRuns.LostVMCannotBeDeleted | pkg/providers/instance/instance.go:186-191 | after a Get, losing the VM makes every Delete fail for the life of the entry |
| ProviderId.SplitJoins | pkg/cloudprovider/cloudprovider.go:351 | splitting at slashes loses nothing and leaves no slash in a part |
| ProviderId.ParseIsSlashFree | pkg/cloudprovider/cloudprovider.go:343-357 | parsing fails exactly on the empty id and never yields a slash |
| ProviderId.RoundTripIff | pkg/cloudprovider/cloudprovider.go:343-362 | parsing a formatted id gives the id back, in every zone, exactly when it has no slash |
| CloudProvider.CloudProvider.Create | pkg/cloudprovider/cloudprovider.go:66-103 | the reply, the cloud and all three listing caches for every answer, the VM being ordered by the terms and the zone of the NodeClass, and the claim carrying the hash of the NodeClass that was read |
| CloudProvider.ListingsAreOfTheZone | pkg/cloudprovider/cloudprovider.go:82-88 | Create works on the listings cached for, or else asked for, the zone of its NodeClass |
| CloudProvider.CloudProvider.Get | pkg/cloudprovider/cloudprovider.go:106-124 | the reply for every provider id and every answer; an absent NodeClass is no obstacle, a failing lookup is |
| CloudProvider.CloudProvider.List | pkg/cloudprovider/cloudprovider.go:127-144 | the claims of all listed instances, or a failure exactly if listing or the lookup of a NodeClass fails |
| CloudProvider.CloudProvider.Delete | pkg/cloudprovider/cloudprovider.go:147-160 | deletes the VM the provider id names |
| CloudProvider.CreateSucceedsIff | pkg/cloudprovider/cloudprovider.go:66-103 | a claim is returned exactly when the NodeClass is there, the first condition of type Ready has status True, its terms resolve and the VM comes to run; which error otherwise; unless a VM can be ordered the cloud is left alone |
| CloudProvider.CreateFollowsResolution | pkg/cloudprovider/cloudprovider.go:67-92 | after any run of the controller, a Create that asks for a VM finds stored lists that are one reconciliation's resolution of the generation Ready=True observed, of the spec in use unless edited since |
| CloudProvider.EditedIsStillCreated | pkg/cloudprovider/cloudprovider.go:76-79 | after any run of the controller, editing a Ready=True NodeClass leaves Create ordering a VM from the edited spec |
| CloudProvider.CreatedFromFirstChoices | pkg/cloudprovider/cloudprovider.go:81-98 | the claim names the offering, network, template and zone that the NodeClass's own terms choose first, read declaratively, in the listings of its zone, the provider id written out, and the hash of the spec |
| CloudProvider.AppendedTermsAreIgnored | pkg/cloudprovider/cloudprovider.go:66-103 | terms added at the end of the NodeClass's three lists change nothing about Create but the recorded hash, where each list resolves to something |
| CloudProvider.ChosenOfferingIsUsedIff | pkg/providers/instance/instance.go:122-126 | the VM has the chosen offering exactly when that is the first listed with its name |
| CloudProvider.DeleteTargetsCreatedIff | pkg/cloudprovider/cloudprovider.go:147-153 | the claim Create returned names the created VM exactly when its id has no slash |
| CloudProvider.CreateThenDelete | pkg/cloudprovider/cloudprovider.go:66-160 | Create then Delete leaves the VMs and tags of the cloud as they were |
| CloudProvider.TagRoundTrip | pkg/providers/instance/instance.go:327-377 | tags written and read back in any order name the NodeClass, NodeClaim and NodePool; the managed-by key is there |
| CloudProvider.NodeClassRecoveredIff | pkg/apis/v1/cloudstacknodeclass.go:61-66 | without admission rules the NodeClass is named rightly exactly when the user's tags do not say otherwise |
| CloudProvider.ReadBack | pkg/cloudprovider/cloudprovider.go:106-124 | Get with the provider id of a new VM gives Create's claim but for the hash, with its NodePool label, and finds its NodeClass |
| CloudProvider.GetAgreesWithList | pkg/cloudprovider/cloudprovider.go:106-144 | Get gives every VM that List shows as the claim List shows |
| CloudProvider.GetMeans | pkg/cloudprovider/cloudprovider.go:106-124 | which failure Get reports, or the claim that shows the instance, label by label, deleting exactly for a VM that is Destroyed or Expunging |
| CloudProvider.ListMeans | pkg/cloudprovider/cloudprovider.go:127-144 | List fails exactly if the lookup of some instance's NodeClass fails, a missing one being no obstacle, and else shows every instance in order |
| CloudProvider.DeleteMeans | pkg/cloudprovider/cloudprovider.go:147-160 | the VM behind the last slash is deleted, its failure reported, and the empty id refused |
| CloudProvider.CloudProvider.IsDrifted | pkg/cloudprovider/cloudprovider.go:181-216 | compares hashes where the pool leads to a NodeClass; a failing lookup is an error and absence is never drift |
| CloudProvider.DriftIff | pkg/cloudprovider/cloudprovider.go:181-216 | over runs drift is reported exactly when the hash differs from that at Create; reordering terms never counts, and with a hash without collisions everything else does |
| CloudProvider.SameInputIff | pkg/apis/v1/cloudstacknodeclass.go:231-238 | two specs are hashed alike for every hash exactly when they differ in the order of terms only |
| CloudProvider.ReadClaimsLookDriftedIff | pkg/cloudprovider/cloudprovider.go:320-321 | claims built by Get and List have no hash and look drifted exactly where their pool leads to a NodeClass |
| CloudProvider.GetMakesItLookDrifted | pkg/cloudprovider/cloudprovider.go:106-216 | right after a Create its claim is not drifted and the claim Get returns for it is |
| DeepCopy.CopyTerms | pkg/apis/v1/zz_generated.deepcopy.go:88-108 | a fresh slice with fresh tag maps and the same value, nil kept nil |
| DeepCopy.Spec.DeepCopyInto | pkg/apis/v1/zz_generated.deepcopy.go:86-136 | a copy into another spec has the source's value and only fresh reachable objects; the source is unchanged |
| DeepCopy.Spec.DeepCopy | pkg/apis/v1/zz_generated.deepcopy.go:139-146 | a fresh spec with the same value and fresh reachable objects |
| DeepCopy.CopiesAreApart | pkg/apis/v1/zz_generated.deepcopy.go:86-146 | whatever is done to a deep copy, the original keeps its value |
| DeepCopy.Status.DeepCopyInto | pkg/apis/v1/zz_generated.deepcopy.go:149-173 | a copy into another status has the source's value and fresh slices; copied into itself a status keeps its shape and loses its contents |

## Left out

- NodeClassController.Reconcile: condition messages are left out; they carry the text of errors.
- InstanceProvider.Provider.WaitForVMState: the polls are given as a finite list whose end stands for the timeout; that the timeout fires is not proved.
- InstanceProvider.Provider.Create: the listings of one call are read at one time of the clock.
- DeepCopy.Spec.DeepCopyInto: nothing is said of a spec copied into itself, which loses its contents in the generated code as a status does; the three kinds of selector term share one datatype and the fields are grouped in two records, the slices, maps and pointers themselves being heap objects.
- Sharing of cached listings: cached template listings are slices with their arrays; those of networks and offerings are values, and the elements, which the code never writes to, are values everywhere.
- The controller's zone check is a search by name in what zone List answers; Get and ValidateZone of the zone provider, which search the same list, are easy members.
- User data encoding, root disk size and key pair of a deployment, capacities, requirements and prices of instance types: pass-through or floating point.
- GetInstanceTypes of the cloud provider, registration, operator wiring, options, SDK client, logging, metrics and events.
- The internals of hashstructure, go-cache and lo beyond the assumptions above, and collisions of the hash, which hide drift.
