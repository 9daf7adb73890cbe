# karpenter-oci: a verified model

A Dafny 4.11 model of karpenter-oci, the Karpenter provider for Oracle Cloud,
with proofs about its controllers, its catalogue of instance types, its launch
choice and its drift check. `dafny verify dfyconfig.toml` verifies everything.

## What is modelled

**Protocols over shared state.** Three modules are step systems: a `State`, an
`Action` for every API call, write, crash and outside change, a `Step` function
and `Run`, which folds it over a list of actions. Invariants are proved over all
runs. Beside each of them the controllers are written as classes with methods
over a shared `Cluster` object, whose `Valid()` says that its state is a run of
its history. Between any two API calls a method lets an arbitrary list of other
actors' steps happen, and every write may be applied, lost, or applied without
an answer.

- `NodeClassLifecycle`: the status controller (finalizer first, readiness
  after), the termination controller (list claims, drop the finalizer under the
  optimistic lock) and `CloudProvider.Create`. While a launched NodeClaim
  exists, the very NodeClass object it was launched from exists, with its
  finalizer.
- `GarbageCollection`: if claims record their instance within R of its creation,
  and an age is checked at most D after the claims were listed, no collector
  ever touches the instance or the node of a live claim in any run, if and only
  if R + D is at most 30 seconds. Conversely every managed orphan older than
  that is gone after one reconcile, whichever worker goes next; an instance that
  was leaked because its claim was launched again is an orphan too. Without any
  bound, collectors stop managed, unrecorded instances older than 30 seconds
  only. `GarbageCollector` has the reconcile as a program and says what it
  removes and what it leaves alone.
- `HashMigration`: claims are migrated before the class; whatever patches fail,
  a class that carries the current hash version implies that every claim from
  before the migration, or listed by the reconcile that wrote the version,
  carries it.

**Catalogue, unavailable offerings and launch choice.** `Catalogue` splits
flexible shapes into sizes; `ZoneMerge` merges the zones' lists through shared
pointers, in any map order, against a count of listings; `IceCache` is the cache
of exhausted offerings, proved against the log of everything done to it;
`Launch` creates offerings, picks a type and a zone, and feeds a failed launch
back into the cache; `Retries` follows one claim through repeated launches;
`LaunchRequest` follows a size and a zone through labels
into the launch request and back; `Listing` has the instance tags and the paged
listing that finds instances by them.

**Arithmetic and agreement.** `Capacity` has reservations, allocatable memory
and pod limits; `Pricing` the search in the price list and the price sums, which
`Billing` writes out item by item;
`Selectors`, `Subnets` and `Images` the cached selection of resources and the
canonical order of images; `Drift` compares what is launched with what is
checked. `Text`, `Sequences`, `Sorting` and `Scheduling` hold what the others
share.

## What the code does not keep

Where a property that one would expect fails, the exact condition under which it
holds is proved.

- A failed launch marks the on-demand offering only, and the zone is chosen
  among all available offerings of the type. The retries of a claim are bounded
  by shape names times zones over all runs if and only if the catalogue is
  confined (`Retries.RetryBoundExactly`): a claim that allows preemptible
  instances must find no suitable shape offered as preemptible; for an on-demand
  claim, every suitable type offered as preemptible in two acceptable zones must
  be undercut, in each of its zones, by a suitable type of the same name
  (`Retries.UndercutByName`, `Retries.RetriesWithoutEnd`).
- A key listed in several zones keeps the size record of the zone that comes
  first in the map. The catalogue is the same for every order if and only if the
  zones that list a key agree on the record they list first under it
  (`ZoneMerge.CatalogueFixedExactly`).
- The request is for a preemptible instance whenever the claim allows one, even
  for shapes that are not offered as preemptible
  (`Launch.UnsupportedLaunchExactly`, `Launch.UnsupportedLaunched`).
- A list of preemptible shapes covers every shape if and only if it has an empty
  part, that is, if it is empty or has a comma too many (`Launch.CoversAllExactly`,
  `Launch.EmptyPartExactly`). So an empty exclude list excludes every shape.
- Minimum OCPUs and memory are truncated before they are compared
  (`Catalogue.TruncatedBoundsSound`, `Catalogue.TruncatedMinimumMissed`).
- A VNIC rate per OCPU below one gives sizes without VNICs and a capacity of -31
  pods (`Capacity.FlexVnicsRange`, `Capacity.FlexPodsNonNegative`,
  `Capacity.HalfVnicPods`). Such sizes never fit a claim, so they are listed but
  never launched.
- Allocatable memory falls where the reserve jumps: always at 128 Gi, sometimes
  at 2 and 16 Gi (`Capacity.AllocatableDrops`).
- The image cache key omits the image family (`Images.CachedForFamilyExactly`,
  `Images.CachedForOtherFamily`).
- Free addresses are computed from the first utilization summary, whichever
  summary matched (`Subnets.CountsOwnBlockExactly`).
- A zone that is a substring of another domain's name may be launched in the
  wrong domain (`LaunchRequest.ZonesRoundTrip`, `LaunchRequest.ZonePrefixLost`).
- The drift check ends in an error for every NodeClass without security groups
  (`Drift.LaunchedNotDriftedExactly`), although the repository's README promises
  support for none.
- A user tag can override the managed-by tag, after which the instance is never
  listed again (`Listing.TaggedIsManagedExactly`, `Listing.ManagedByOverridden`).
- A page token "0" makes the listing start over for ever
  (`Listing.ListingEndsExactly`, `Listing.ZeroTokenRunsOn`).
- An NVMe item is charged per GB of local disks on its own and per TB among
  others, which agrees if and only if the charge is zero
  (`Pricing.NvmeThousandfold`).

The repository's README gives 0.075, "2,4,8" and ten values from 1 to 128 as
defaults of vmMemoryOverheadPercent, flexCpuMemRatios and flexCpuConstrainList;
the code uses 0.0, "4" and every number from 1 to 128. The model takes all three
as parameters.

## Assumptions

- API reads are linearizable; a deleting object without finalizers disappears;
  the API refuses new finalizers on a deleting object; a patch under the
  optimistic lock fails when the object has changed; UIDs are not reused.
- Nobody else removes this provider's finalizer, and nobody takes the hash
  version off a NodeClaim. Users create, edit and delete at will.
- The cloud's creation times and the controller's clock are one clock.
- A hash of a spec or of a set of selectors stands for what was hashed. That the
  hash of a list of selectors does not depend on repetitions is assumed of the
  hashing library, which is not part of this repository; were repetitions to
  cancel out, lists with different sets of selectors could share a key.
- `Fits` of karpenter, which is not part of this repository, refuses types with a
  negative allocatable amount.
- go-cache answers from an entry until its deadline has strictly passed;
  `sort.Slice` sorts; Go walks a map in any order.
- `OrderByPrice` of karpenter, which is not part of this repository, sorts the
  slice it is given, as `sort.Slice` does. `CloudProvider.Create` then searches
  the ordered slice, so it reports the type that was launched
  (`Launch.LaunchAndReport`). If it sorted a copy, another size of the shape
  could be reported (`LaunchRequest.ReportedMatchesLaunched`).
- Floats are exact reals. In `Pricing`, `None` stands for infinities and NaN.

## Model

| member | source | states |
|---|---|---|
| `NodeClassLifecycle.StepInv` | pkg/controllers/nodeclass/termination/controller.go:54-90 | every step of every actor keeps the invariant: ready classes are finalized, and the class object of every claim resolved by Create is held while the claim exists |
| `NodeClassLifecycle.LaunchedClaimsKeepTheirClass` | pkg/cloudprovider/cloudprovider.go:91-127 | in every interleaving, while a launched claim exists, the class object it was launched from (same UID) exists under its name with the finalizer |
| `NodeClassLifecycle.ReadyImpliesFinalizer` | pkg/controllers/nodeclass/status/controller.go:61-107 | over all runs, a class that is ready and not deleting has the finalizer |
| `NodeClassLifecycle.ResolvedWasReady` | pkg/cloudprovider/cloudprovider.go:91-112 | over all runs, for every claim that Create has let through there is a step at which Create read its class, live and with all three conditions true |
| `NodeClassLifecycle.LaunchedWasReady` | pkg/cloudprovider/cloudprovider.go:100-117 | so it is for every launched claim |
| `NodeClassLifecycle.UnusedClassReleased` | pkg/controllers/nodeclass/termination/controller.go:63-90 | an undisturbed finalize of an unreferenced deleting class lets it go, unless foreign finalizers hold it |
| `NodeClassLifecycle.TerminationController.Reconcile` | pkg/controllers/nodeclass/termination/controller.go:54-90 | any interference gives a run of the protocol; undisturbed, the class is released if no claim refers to it, and kept unchanged when the requeue says a claim does |
| `NodeClassLifecycle.TerminationController.Finalize` | pkg/controllers/nodeclass/termination/controller.go:63-90 | an error, with no class changed, when the claims cannot be listed; otherwise it requeues in ten minutes, with no class changed, exactly when a claim refers to the class |
| `NodeClassLifecycle.TerminationController.Release` | pkg/controllers/nodeclass/termination/controller.go:76-89 | with a current version the finalizer goes, and the object disappears exactly when it is deleting and nobody else holds it |
| `NodeClassLifecycle.StatusController.Reconcile` | pkg/controllers/nodeclass/status/controller.go:61-107 | undisturbed on a live class, it leaves the finalizer; each condition is what was found, or as it was where nothing was found; an error is reported exactly when a sub-reconciler failed |
| `NodeClassLifecycle.StatusController.AddFinalizer` | pkg/controllers/nodeclass/status/controller.go:64-77 | the reconcile goes on only with the finalizer persisted on the version it holds |
| `NodeClassLifecycle.StatusController.PatchConditions` | pkg/controllers/nodeclass/status/controller.go:78-107 | an undisturbed patch changes the conditions only, to what was found |
| `NodeClassLifecycle.CloudProvider.Create` | pkg/cloudprovider/cloudprovider.go:91-127 | not found exactly for a missing or deleting class; not ready exactly when some condition of the class as read is false; unknown exactly when none is false and some is not true; types are looked up, and the claim launched, only when images, subnets and security groups are all true, and otherwise nothing happens |
| `GarbageCollection.CollectionSafeExactly` | pkg/controllers/nodeclaim/garbagecollection/controller.go:56-119 | over all runs in which claims record within R and ages are checked within D, no instance or node that a claim has or may still record is collected, if and only if R + D is at most 30 seconds |
| `GarbageCollection.OverdueNotLive` | pkg/controllers/nodeclaim/garbagecollection/controller.go:82-87 | an instance that passes the age check and was unresolved in the listing of claims belongs to no live claim |
| `GarbageCollection.GcInv` | pkg/controllers/nodeclaim/garbagecollection/controller.go:60-98 | every step of a collector keeps the safety invariant under the two bounds |
| `GarbageCollection.LateRecordHarms` | pkg/controllers/nodeclaim/garbagecollection/controller.go:82-87 | for bounds beyond 30 seconds, a run that keeps them and terminates a live claim's instance |
| `GarbageCollection.StoppedWasDue` | pkg/controllers/nodeclaim/garbagecollection/controller.go:60-106 | over all runs, without any bound: a collector stops an instance only if it is managed, no claim recorded it when the collector listed the claims, and it was older than 30 seconds when the collector checked it |
| `GarbageCollection.DroppedWasDue` | pkg/controllers/nodeclaim/garbagecollection/controller.go:81-139 | over all runs, a collector drops a node only if it listed it, and its instance as managed, unrecorded and, at its check, older than 30 seconds, or as stopped and older than 5 minutes with the node unreachable |
| `GarbageCollection.LiveUntouched` | pkg/controllers/nodeclaim/garbagecollection/controller.go:81-139 | in a run within the bounds, no call of a collector changes the instance or takes the node of a claim that has recorded it or nothing yet |
| `GarbageCollector.SupersededIsOrphan` | pkg/controllers/nodeclaim/garbagecollection/controller.go:78-87 | an instance whose claim has recorded another one is collected like any orphan |
| `GarbageCollector.Controller.Reconcile` | pkg/controllers/nodeclaim/garbagecollection/controller.go:56-100 | for any paging, interference and worker order: if nothing fails, every managed orphan older than 30 seconds on some page stops, and its node goes unless someone else stopped it or set the node again; whatever happens, an instance that is unmanaged, not older than 30 seconds, or recorded by a claim throughout keeps running and keeps its node unless someone else's step ended that; successes are counted, and requeued after 10 seconds for the first 20, then 2 minutes |
| `GarbageCollector.Controller.CollectInstances` | pkg/controllers/nodeclaim/garbagecollection/controller.go:81-119 | if nothing fails, every running instance listed as managed and unrecorded and older than 30 seconds is terminated and its listed node goes, in whatever order the workers take them; no other instance is stopped and no other node dropped, but by others |
| `GarbageCollector.Controller.CollectNodes` | pkg/controllers/nodeclaim/garbagecollection/controller.go:88-139 | if nothing fails, the node of every stopped, managed, unrecorded instance past five minutes that was listed as unreachable is gone unless someone set it again; whatever happens, no other node goes but by what others do |
| `HashMigration.RunInv` | pkg/controllers/nodeclass/hash/controller.go:43-111 | every run keeps the migration invariant, with failing patches, crashes, several reconciles and outside writes |
| `HashMigration.MigrationCrashConsistent` | pkg/controllers/nodeclass/hash/controller.go:43-65 | once the class carries the current version, so does every existing claim from before the migration, listed by the migrating reconcile, or launched since |
| `HashMigration.PatchClaimEffect` | pkg/controllers/nodeclass/hash/controller.go:84-108 | a patch touches one claim at most, keeps everything else, and leaves the version on it unless it failed |
| `HashMigration.PatchedHash` | pkg/controllers/nodeclass/hash/controller.go:89-107 | an acknowledged patch leaves the version and, on claims that were not drifted, the hash of the class as read |
| `HashMigration.DriftedKeepsHash` | pkg/controllers/nodeclass/hash/controller.go:94-100 | over any run a drifted claim keeps its old hash while nobody relaunches it or clears its condition |
| `HashMigration.SettledWritesNothing` | pkg/controllers/nodeclass/hash/controller.go:58-62 | a reconcile of a class with up-to-date annotations writes nothing |
| `HashMigration.HashController.Reconcile` | pkg/controllers/nodeclass/hash/controller.go:43-65 | any interference gives a run of the protocol; undisturbed, the class ends up with the hash of its spec and version v1, written exactly when it had not both; if it had not the version, every claim ends up with it, and with the class's hash unless it was drifted or had the version; an error, with nothing changed, when the claims cannot be listed |
| `HashMigration.HashController.PatchNodeClass` | pkg/controllers/nodeclass/hash/controller.go:53-64 | fails exactly when a patch is needed and not acknowledged |
| `HashMigration.HashController.UpdateNodeClaimHash` | pkg/controllers/nodeclass/hash/controller.go:78-111 | every listed claim is tried, failures are reported, and undisturbed all claims end up migrated |
| `IceCache.CacheRefinesLog` | pkg/cache/unavailableofferings.go:46-80 | at any time an entry is live exactly when the last thing that touched its key is a mark not older than the TTL, whenever the janitor ran |
| `IceCache.MarkBlocks` | pkg/cache/cache.go:24-26 | a mark blocks its own key for three minutes, and no other |
| `IceCache.UnavailableOfferings.IsUnavailable` | pkg/cache/unavailableofferings.go:47-50 | answers as the log of everything done to the cache says |
| `IceCache.UnavailableOfferings.MarkUnavailable` | pkg/cache/unavailableofferings.go:53-63 | appends a mark to the log the object stands for |
| `IceCache.UnavailableOfferings.Delete` | pkg/cache/unavailableofferings.go:69-71 | appends a deletion; SeqNum follows the log |
| `IceCache.UnavailableOfferings.Flush` | pkg/cache/unavailableofferings.go:73-75 | appends a flush and leaves SeqNum alone |
| `IceCache.UnavailableOfferings.DeleteExpired` | pkg/cache/unavailableofferings.go:35-44 | one pass of the janitor, entry by entry in any order, is one sweep of the log |
| `IceCache.UnavailableOfferings.EvictExpired` | pkg/cache/unavailableofferings.go:40-42 | exactly the expired entries go, and SeqNum moves once for each |
| `IceCache.BumpsMonotone` | pkg/cache/unavailableofferings.go:32-62 | SeqNum, before it wraps around, never decreases |
| `IceCache.NoBumpNoChange` | pkg/cache/unavailableofferings.go:40-75 | if SeqNum has not moved, only a flush can have changed the entries |
| `IceCache.SeqNumCertifiesAnswers` | pkg/cache/unavailableofferings.go:35-80 | with equal SeqNum all answers agree if and only if no entry live then has been flushed or passed its deadline |
| `IceCache.KeyInjective` | pkg/cache/unavailableofferings.go:77-80 | keys of colon-free components are equal exactly for equal offerings |
| `IceCache.KeyCollision` | pkg/cache/unavailableofferings.go:77-80 | two offerings with colons that share a key |
| `Catalogue.FlexSizesEnumerate` | pkg/providers/instancetype/instancetype.go:216-274 | the sizes are exactly the in-bounds pairs of CPU and ratio entries, once each, in lexicographic order; unparsable entries give none |
| `Catalogue.EmitsIf` | pkg/providers/instancetype/instancetype.go:229-243 | a pair of entries gives a size if and only if both parse and CPUs and memory meet the four truncated limits |
| `Catalogue.FlexSizeIs` | pkg/providers/instancetype/instancetype.go:219-238 | A1 shapes have one vCPU per OCPU, others two, and the ratio gives the memory per vCPU |
| `Catalogue.FlexVnicsIs` | pkg/providers/instancetype/instancetype.go:244-255 | two VNICs for one OCPU, else the whole part of the rate for each, at most 24 |
| `Catalogue.FlexBandwidthIs` | pkg/providers/instancetype/instancetype.go:256-262 | the bandwidth per OCPU, kept within the shape's range |
| `Catalogue.FixedSizeIs` | pkg/providers/instancetype/instancetype.go:202-210 | other shapes keep their whole figures, with two vCPUs per OCPU whatever their name |
| `Catalogue.AllSizesMember` | pkg/providers/instancetype/instancetype.go:196-214 | a listing has exactly the sizes of its shapes |
| `Catalogue.SizesOfMember` | pkg/providers/instancetype/instancetype.go:199-211 | for a flexible shape those of all pairs of entries that give one, for another its own |
| `Catalogue.SplitFlexCpuMem` | pkg/providers/instancetype/instancetype.go:216-274 | the nested loop makes one new entry per such size, known in its zone only |
| `Catalogue.FlexSizeFor` | pkg/providers/instancetype/instancetype.go:229-270 | the loop body, with its four ways to skip, gives the size of a pair of entries |
| `Catalogue.ToWrapShape` | pkg/providers/instancetype/instancetype.go:196-214 | new entries for all sizes of all shapes, in order |
| `Catalogue.MergeKeyInjective` | pkg/providers/instancetype/instancetype.go:184-185 | merge keys are equal exactly for equal names, CPUs and memory, for non-negative numbers |
| `Catalogue.MergeKeyCollision` | pkg/providers/instancetype/instancetype.go:184-185 | with a negative number two different sizes share a key |
| `Catalogue.FlexSizesHaveDistinctKeys` | pkg/providers/instancetype/instancetype.go:184-274 | for duplicate-free positive lists no two sizes of a shape share a key |
| `Catalogue.TruncatedBoundsSound` | pkg/providers/instancetype/instancetype.go:238-243 | a size that passes is within the shape's limits if and only if it is not on the truncation of a fractional minimum |
| `Catalogue.TruncatedMinimumMissed` | pkg/providers/instancetype/instancetype.go:238-240 | with a minimum of 1.5 OCPUs a size of one passes |
| `Catalogue.TruncatedBoundsComplete` | pkg/providers/instancetype/instancetype.go:238-243 | no size within the limits is dropped |
| `ZoneMerge.AddShape` | pkg/providers/instancetype/instancetype.go:184-188 | a listing becomes the key's entry or is appended to it through the kept pointer; other entries are untouched |
| `ZoneMerge.CombineZones` | pkg/providers/instancetype/instancetype.go:176-190 | for every map order, the merged domains of each key hold each zone once per listing of the key in it, and each key keeps the first size in that order |
| `ZoneMerge.GroupByZone` | pkg/providers/instancetype/instancetype.go:140-175 | domains with one zone name share a list of fresh entries of all sizes listed for the zone; for domains "prefix:zone" the lists are those of the zones |
| `ZoneMerge.ListInstanceType` | pkg/providers/instancetype/instancetype.go:133-194 | the catalogue's keys are exactly those of the listed sizes, with each key's domains, as a multiset, one per listing, and each key's size the first in some order of the zones |
| `ZoneMerge.ZoneOf` | pkg/providers/instancetype/instancetype.go:167-167 | the zone of "prefix:zone" is the part after the colon |
| `ZoneMerge.CataloguedZones` | pkg/providers/instancetype/instancetype.go:140-190 | in the catalogue of such domains an entry names a zone if and only if a domain of that zone lists its key, so two domains of one tenancy keep two zones |
| `ZoneMerge.KeptAfterAt` | pkg/providers/instancetype/instancetype.go:184-186 | a key is kept for every zone that lists it, with the first size some zone lists under it |
| `ZoneMerge.FirstOfIs` | pkg/providers/instancetype/instancetype.go:178-190 | the first size of a list under a key has no other under that key before it |
| `ZoneMerge.CatalogueFixedExactly` | pkg/providers/instancetype/instancetype.go:178-190 | the sizes kept are the same for every order of the zones if and only if zones that list a key agree on the size they list first under it |
| `Launch.CoversAllExactly` | pkg/providers/instancetype/instancetype.go:126-131 | a list covers every shape name if and only if one of its parts is empty |
| `Launch.EmptyPartExactly` | pkg/providers/instancetype/instancetype.go:126-131 | it has an empty part if and only if it is empty, begins or ends with a comma, or has two commas in a row |
| `Launch.NothingPreemptibleExactly` | pkg/providers/instancetype/instancetype.go:126-131 | no shape is offered as preemptible if and only if every included prefix begins with an excluded one |
| `Launch.SupportedIf` | pkg/providers/instancetype/instancetype.go:126-131 | a shape is offered as preemptible if and only if its name begins with a part of the one list and with no part of the other |
| `Launch.CreateOfferings` | pkg/providers/instancetype/instancetype.go:76-124 | for any order of zones, one on-demand and one preemptible offering per zone, available as the cache says |
| `Launch.CreateOffer` | pkg/providers/instancetype/instancetype.go:80-107 | half price for preemptible where supported, never available where not |
| `Launch.OfferIs` | pkg/providers/instancetype/instancetype.go:76-124 | every offering is for one of the zones, at the entry's price or half of it, and available unless the cache blocks it or the shape does not support its capacity type |
| `Launch.MarkedPoolPicked` | pkg/providers/instance/instance.go:248-269 | a marked zone may still be chosen exactly when the shape is offered as preemptible there and that offering is not marked |
| `Launch.OnOfferIs` | pkg/providers/instancetype/instancetype.go:76-124 | a capacity type is on offer in a zone exactly when the cache does not block it and, for preemptible, the shape supports it |
| `Launch.RequestedIs` | pkg/providers/instance/instance.go:134-141 | a preemptible instance is asked for if and only if the claim allows one |
| `Launch.UnsupportedLaunchExactly` | pkg/providers/instance/instance.go:113-141 | a shape not offered as preemptible is launched as what is on offer in the zone if and only if the claim does not allow preemptible instances |
| `Launch.UnsupportedLaunched` | pkg/providers/instance/instance.go:113-141 | a claim without requirements is picked a shape and asks for a preemptible instance that is not on offer |
| `Launch.BestPriceIsLeast` | pkg/providers/instance/instance.go:253-254 | a type is ordered by the least price among its available offerings that the claim allows |
| `Launch.OrderByPrice` | pkg/providers/instance/instance.go:253-254 | the same types, ordered by that price, in the slice given |
| `Launch.PickBestInstanceType` | pkg/providers/instance/instance.go:248-269 | the cheapest type and one of its priority zones, or nothing without types or zones; the type stands first in the slice |
| `Launch.LaunchAndReport` | pkg/cloudprovider/cloudprovider.go:114-121 | the type found by the launched shape's name is the launched type |
| `Launch.ResolvedMembers` | pkg/cloudprovider/cloudprovider.go:252-263 | the resolved types are exactly those with compatible labels, no negative amount, room for every request, and an available offering in an allowed zone of an allowed capacity type |
| `Launch.ResolvedHasZone` | pkg/providers/instance/instance.go:255-262 | a resolved type always has a zone to launch in |
| `Launch.LaunchInstance` | pkg/providers/instance/instance.go:176-190 | insufficient capacity exactly for a 500 that is out of host capacity and a 400 that exceeds service limits; then the on-demand offering is marked, and otherwise nothing |
| `Retries.MarkStays` | pkg/cache/unavailableofferings.go:53-63 | a mark blocks its offering for the TTL whatever else is marked or swept |
| `Retries.BlockedPickBreaks` | pkg/providers/instance/instance.go:248-269 | if a claim is ever sent into a marked pool, with the whole catalogue listed, the catalogue is not confined |
| `Retries.NoRelaunch` | pkg/providers/instance/instance.go:176-189 | within one TTL no attempt returns to a shape and zone that failed, on a confined catalogue |
| `Retries.RetryBound` | pkg/providers/instance/instance.go:248-269 | on a confined catalogue a claim fails at most names times zones times in one TTL window |
| `Retries.StuckOnDemand` | pkg/providers/instance/instance.go:255-268 | with all pools marked but one, an on-demand claim takes a type that nothing undercuts there into another of its zones |
| `Retries.StuckPreemptible` | pkg/providers/instance/instance.go:255-268 | with all pools marked, a claim that allows preemptible instances takes the cheapest suitable shape offered as such |
| `Retries.RetryUnbounded` | pkg/providers/instance/instance.go:184-184 | a marked pool that is chosen once can fail any number of times, with marks of catalogue pools only |
| `Retries.RetryBoundExactly` | pkg/providers/instance/instance.go:176-269 | for every claim the bound holds over all runs, each listing the whole catalogue, if and only if the catalogue is confined |
| `Retries.SamePoolIs` | pkg/cache/unavailableofferings.go:77-80 | for colon-free names a pool is one shape in one zone |
| `Retries.UndercutByName` | pkg/providers/instance/instance.go:253-262 | then a type is undercut in a zone if and only if a suitable type of its name accepts the zone for less |
| `Retries.RetriesWithoutEnd` | pkg/providers/instance/instance.go:176-269 | one preemptible shape in two zones, and an on-demand claim, make any number of failures in one pool |
| `LaunchRequest.OcpusSurvive` | pkg/providers/instance/instance.go:143-161 | the decimal labels of a flexible size give back its OCPUs and memory, for A1 and other shapes |
| `LaunchRequest.LabelsRead` | pkg/providers/instancetype/types.go:163-169 | the labels read back as the vCPUs, the memory in Mi, and whether the shape is flexible |
| `LaunchRequest.ShapeConfigRead` | pkg/providers/instance/instance.go:143-161 | from such labels a flexible shape is launched with the vCPUs, halved unless it is an A1, and whole gigabytes |
| `LaunchRequest.FlexSizeSurvivesLaunch` | pkg/providers/instance/instance.go:143-161 | launched and billed OCPUs are those of the list entry, and the memory is what its ratio calls for |
| `LaunchRequest.ZonesRoundTrip` | pkg/providers/instance/instance.go:74-81 | all zones round-trip if and only if no earlier domain contains the name of another zone |
| `LaunchRequest.ZoneRoundTrip` | pkg/cloudprovider/cloudprovider.go:310-316 | the same for one zone |
| `LaunchRequest.FiledAsLabelled` | pkg/cloudprovider/cloudprovider.go:310-316 | the zone a domain's shapes are filed under is the one its nodes are labelled with |
| `LaunchRequest.FiledZoneFound` | pkg/providers/instance/instance.go:74-81 | of different domains, the zone one is filed under leads back to it if and only if no domain before it mentions that zone |
| `LaunchRequest.ZonePrefixLost` | pkg/providers/instance/instance.go:75-77 | AD-1 is launched in AD-10 when that is configured first |
| `LaunchRequest.ReportedMatchesLaunched` | pkg/cloudprovider/cloudprovider.go:118-121 | in a list of any order, the search by shape name finds a given size exactly when no other size of the shape comes before it |
| `Capacity.Calculate` | pkg/providers/instancetype/types.go:114-125 | the early-break loop computes the tax of the specification |
| `Capacity.TaxIsLastBracket` | pkg/providers/instancetype/types.go:114-125 | in a sorted table that is the value of the last bracket not above the amount |
| `Capacity.TaxMonotoneIffRising` | pkg/providers/instancetype/types.go:62-125 | the tax of a sorted table is monotone over all amounts if and only if no rate is negative and each bracket starts at or above the end of the one before |
| `Capacity.ShippedTablesMonotone` | pkg/providers/instancetype/types.go:62-111 | both shipped tables are monotone |
| `Capacity.KubeReservedTable` | pkg/providers/instancetype/types.go:255-262 | the memory reserve in closed form, for every size |
| `Capacity.KubeReservedCpuTable` | pkg/providers/instancetype/types.go:87-111 | the CPU reserve in closed form, for every number of vCPUs |
| `Capacity.AllocatableIs` | pkg/providers/instancetype/types.go:205-299 | allocatable memory in closed form, without VM overhead |
| `Capacity.AllocatableNonNegative` | pkg/providers/instancetype/types.go:205-299 | with default kubelet settings allocatable memory is non-negative for all sizes of at least 1 Gi if and only if the overhead is at most 824/2048 |
| `Capacity.AllocatableDrops` | pkg/providers/instancetype/types.go:62-85 | one more Gi costs allocatable memory exactly at 128 Gi, and at 2 and 16 Gi when the overhead grows there |
| `Capacity.PodsWithinKubeletLimit` | pkg/providers/instancetype/types.go:226-240 | scheduled pods never exceed what the launched kubelet admits, and equal it when maxPods is unset |
| `Capacity.PodsIsLeast` | pkg/providers/instancetype/types.go:226-240 | pod capacity is the least of maxPods or 110, podsPerCore for each vCPU, and 31 for every VNIC but the first |
| `Capacity.PodsNonNegative` | pkg/providers/instancetype/types.go:226-240 | pod capacity is non-negative if and only if the size has a VNIC |
| `Capacity.FlexVnicsRange` | pkg/providers/instancetype/instancetype.go:244-255 | a flexible size has 2 to 24 VNICs if and only if it has one OCPU or a rate of at least one, and otherwise none |
| `Capacity.FlexPodsNonNegative` | pkg/providers/instancetype/types.go:226-240 | hence when a flexible size has a non-negative pod capacity |
| `Capacity.HalfVnicPods` | pkg/providers/instancetype/instancetype.go:250-250 | at half a VNIC per OCPU, two OCPUs have none and a capacity of -31 pods |
| `Pricing.SplitJoinDash` | pkg/providers/pricing/pricing.go:389-398 | splitting a display name undoes joining its parts |
| `Pricing.CoreNumRead` | pkg/providers/pricing/pricing.go:389-412 | the number at the end of the second-to-last part is read as the core count |
| `Pricing.FindCandidate` | pkg/providers/pricing/pricing.go:204-217 | each item as often as its category is named, in order |
| `Pricing.CopiesOnce` | pkg/providers/pricing/pricing.go:204-217 | for different categories, once for every item in one of them |
| `Pricing.FindPriceItems` | pkg/providers/pricing/pricing.go:161-202 | the items of the shape's category that name it as a word, or if there are none those of related categories that contain its name |
| `Pricing.AddUp` | pkg/providers/pricing/calculator.go:65-91 | the loop adds up the items up to and including the first that reaches the Hourly Commit branch |
| `Pricing.Calculate` | pkg/providers/pricing/calculator.go:24-94 | the price by number of items found, with the formula for a missing price list |
| `Pricing.NvmeThousandfold` | pkg/providers/pricing/calculator.go:62-75 | an NVMe item on its own costs 1024 times what it costs among others, so the two agree if and only if they are zero |
| `Pricing.PriceFinite` | pkg/providers/pricing/pricing.go:102-111 | the price is a number if and only if no billed node has zero cores in its name |
| `Pricing.PriceMonotone` | pkg/providers/pricing/calculator.go:24-94 | with non-negative prices and positive core counts prices are non-negative and grow with CPU and memory |
| `Pricing.LargerFlexSizeCostsMore` | pkg/providers/pricing/calculator.go:37-91 | a flexible size never costs less than one with fewer CPUs at a lower ratio |
| `Pricing.BilledAsLaunched` | pkg/providers/pricing/calculator.go:27-31 | the OCPUs a flexible size is billed for are those it is launched with |
| `Billing.OcpusAre` | pkg/providers/pricing/calculator.go:26-31 | billed OCPUs are the vCPUs on A1 shapes and half of them, rounded toward zero, on others |
| `Billing.UsdIs` | pkg/providers/pricing/pricing.go:113-121 | the price is that of the first localization in dollars, or zero |
| `Billing.SoleOcpuItem` | pkg/providers/pricing/calculator.go:52-61 | a sole item per OCPU, or per node without GPUs, costs the OCPUs times the price per unit |
| `Billing.SoleGpuItem` | pkg/providers/pricing/calculator.go:50-58 | a sole item per GPU, or per node with GPUs, costs the GPUs times the price per unit |
| `Billing.SoleMemoryItem` | pkg/providers/pricing/calculator.go:54-55 | a sole item per gigabyte costs the memory times the price |
| `Billing.SoleNvmeItem` | pkg/providers/pricing/calculator.go:62-63 | a sole NVMe item costs the gigabytes of local disks times the price |
| `Billing.SoleItemFree` | pkg/providers/pricing/calculator.go:46-48 | a sole free item, and one of any other metric, costs nothing |
| `Billing.OcpuItemAdds` | pkg/providers/pricing/calculator.go:70-87 | among others an item that names OCPUs, or neither a component nor a term, adds OCPUs times its price |
| `Billing.MemoryItemAdds` | pkg/providers/pricing/calculator.go:72-73 | one that names memory adds gigabytes times its price |
| `Billing.NvmeItemAdds` | pkg/providers/pricing/calculator.go:74-75 | one that names NVMe adds terabytes times its price |
| `Billing.TermItemAddsNothing` | pkg/providers/pricing/calculator.go:76-81 | one that names a month's, a year's or three years' commitment adds nothing |
| `Billing.EndsTheList` | pkg/providers/pricing/calculator.go:82-84 | what follows an hourly commitment is not billed |
| `Billing.OcpusAndMemory` | pkg/providers/pricing/calculator.go:65-90 | an item for OCPUs and one for memory, in either order, cost OCPUs times the one price and gigabytes times the other |
| `Billing.FlexShapePrice` | pkg/providers/pricing/calculator.go:37-90 | so does a shape for which the price list holds these two |
| `Billing.NoItems` | pkg/providers/pricing/calculator.go:33-41 | without a price list, 8 for each OCPU and 1 for each gigabyte; without items, the greatest float32 |
| `Billing.MoreMemoryCosts` | pkg/providers/pricing/calculator.go:65-90 | where one item among others bills the memory, d gigabytes more cost exactly d times its price more |
| `Billing.ItemsOfShape` | pkg/providers/pricing/pricing.go:161-202 | an item belongs to a shape if and only if it is of its category and names its key as a word or, when no item does, of a related category and contains the key |
| `Billing.LongerNameDiffers` | pkg/providers/pricing/pricing.go:183-191 | a name that goes on after the key is not that word |
| `Billing.StandardShape` | pkg/providers/pricing/pricing.go:229-288 | VM.Standard.E4.Flex, and any other architecture, is looked up as Standard - E4 among virtual machines or bare metal |
| `Billing.NumberedShape` | pkg/providers/pricing/pricing.go:264-273 | VM.Standard3.Flex is looked up as Standard3, and the first generation as Standard - X5 |
| `Billing.GpuShape` | pkg/providers/pricing/pricing.go:236-255 | BM.GPU.A10.4 is looked up as GPU - A10 among GPUs only |
| `Billing.NumberedGpuShape` | pkg/providers/pricing/pricing.go:44-50 | the second and third generation of GPUs are looked up as GPU Standard - X7 |
| `Billing.DenseShape` | pkg/providers/pricing/pricing.go:255-261 | BM.DenseIO.E5.128 is looked up as Dense I/O - E5 |
| `Billing.HpcShape` | pkg/providers/pricing/pricing.go:44-50 | BM.HPC2.36 and VM.Optimized3.Flex are looked up as Standard - HPC - X7 |
| `Billing.E4FlexPrice` | pkg/providers/pricing/calculator.go:24-94 | VM.Standard.E4.Flex at the list's 0.025 and 0.0015 costs 0.098 with four vCPUs and 32 GB, and accordingly for any size |
| `Selectors.Union` | pkg/providers/subnet/subnet.go:97-124 | the loop fails exactly when some request fails, and otherwise files one resource per ID found |
| `Selectors.AnswerMembers` | pkg/providers/subnet/subnet.go:82-127 | for a fixed API the answer holds exactly what some selector finds |
| `Selectors.AnswersArePermutations` | pkg/providers/imagefamily/imagefamily.go:49-91 | so it depends on the set of selectors only, up to order |
| `Selectors.Provider.List` | pkg/providers/subnet/subnet.go:82-127 | an answer was right at some time within the TTL for a context with the same part in the key; a hit changes nothing, a failure stores nothing, a miss stores what was found |
| `Selectors.CachedIsCurrent` | pkg/providers/subnet/subnet.go:91-95 | if the API has not changed and the key tells contexts apart, a cached answer agrees with asking again |
| `Subnets.SubnetsCachedSoundly` | pkg/providers/subnet/subnet.go:82-127 | subnets answered from the cache are those found by asking, for any list with the same selectors |
| `Subnets.FetchedSubnets` | pkg/providers/subnet/subnet.go:97-124 | a selector finds the subnet of its ID, else those of its name in the VCN, else nothing |
| `Subnets.GetSubnetAvailableIPv4Count` | pkg/providers/subnet/subnet.go:54-80 | free addresses by the first summary's utilization if the block has a summary, all addresses if not, never negative |
| `Subnets.TotalIpsIs` | pkg/providers/subnet/subnet.go:178-185 | one address for a /32, and twice as many for each bit less |
| `Subnets.FreeIs` | pkg/providers/subnet/subnet.go:68-79 | the used part of the addresses is rounded down and taken off, down to zero |
| `Subnets.CountsOwnBlockExactly` | pkg/providers/subnet/subnet.go:68-73 | the count is the block's own for all utilizations if and only if its summary comes first |
| `Subnets.FindLeastUtilizedSubnet` | pkg/providers/instance/instance.go:193-216 | the first subnet with the most free addresses, or the first of all when none has any |
| `Subnets.PrimarySubnets` | pkg/providers/subnet/subnet.go:129-176 | fails exactly when a request that is reached fails; otherwise the subnets of the primary VNICs up to the first one behind a secondary, once each |
| `Subnets.PrimaryNsgs` | pkg/providers/securitygroup/securitygroup.go:90-123 | fails exactly when a request fails; otherwise the security groups of the primary VNICs |
| `Subnets.OnePrimary` | pkg/providers/subnet/subnet.go:129-176 | with one primary VNIC, wherever it is in the list, these are its own |
| `Subnets.SecondaryEndsSearch` | pkg/providers/subnet/subnet.go:129-176 | a primary VNIC behind a secondary one ends the search for subnets, and not the one for security groups |
| `Images.ImageSuitsType` | pkg/providers/imagefamily/imagefamily.go:97-110 | an OKE image suits a type if and only if aarch64 is in its name exactly for the five Arm shapes, and a GPU image meets a type with GPUs |
| `Images.OtherImageSuitsAll` | pkg/providers/imagefamily/imagefamily.go:97-100 | an image of another family suits every type |
| `Images.FetchedImages` | pkg/providers/imagefamily/imagefamily.go:61-90 | a selector finds the image of its ID, else those of its name in its compartment, each with what it asks for |
| `Images.SameKindSameRequirements` | pkg/providers/imagefamily/imagefamily.go:97-110 | two families give all images the same requirements exactly when both or neither are OracleOKELinux |
| `Images.CachedForFamilyExactly` | pkg/providers/imagefamily/imagefamily.go:49-91 | an answer cached for one family is right for another if and only if they are of one kind or there are no images |
| `Images.CachedForOtherFamily` | pkg/providers/imagefamily/imagefamily.go:49-59 | one image cached for OracleOKELinux is answered wrongly to Custom |
| `Images.ImagesCachedSoundly` | pkg/providers/imagefamily/imagefamily.go:49-91 | if only families of one kind ask, cached images are those found by asking |
| `Images.StatusCanonical` | pkg/controllers/nodeclass/status/image.go:46-67 | the status is the same for any order of images and of their requirements |
| `Images.Reconcile` | pkg/controllers/nodeclass/status/image.go:36-70 | an error and the old status when the images cannot be listed, none when there are none, otherwise one entry per image in canonical order and ready |
| `Images.StatusFor` | pkg/controllers/nodeclass/status/image.go:46-67 | one entry per image, ordered by ID, with requirements ordered by length and name |
| `Images.StatusOnlyArchAndGpu` | pkg/providers/imagefamily/imagefamily.go:97-110 | entries built from listed images have requirements on architecture and GPUs only |
| `Images.SortedRequirements` | pkg/controllers/nodeclass/status/image.go:47-57 | every requirement once, in that order |
| `Images.MapToInstanceTypes` | pkg/providers/imagefamily/resolver.go:95-107 | maps the type to the first image it suits, or to none |
| `Images.FirstImageIs` | pkg/providers/imagefamily/resolver.go:95-107 | there is none exactly when the type suits no image, and otherwise it is the first one it suits |
| `Images.FirstIsLeast` | pkg/providers/imagefamily/resolver.go:95-107 | of the images the type suits, that is the one with the least ID |
| `Images.AcceptsListed` | pkg/providers/imagefamily/resolver.go:98-101 | a status entry suits a type as the image's own requirements do |
| `Drift.LaunchFrom` | pkg/providers/instance/instance.go:63-126 | the image the type maps to, the least utilized subnet and all security groups of the status, or an error when no image suits, no subnet is found or it has too few addresses for the pods |
| `Drift.IsImageDrifted` | pkg/cloudprovider/drift.go:77-97 | error when the types cannot be listed, without a type of the name or without images; otherwise drifted exactly when that type maps to another image |
| `Drift.IsSubnetDrifted` | pkg/cloudprovider/drift.go:101-119 | error without subnets in the status; otherwise drifted exactly when an attached subnet is not among them |
| `Drift.AreSecurityGroupsDrifted` | pkg/cloudprovider/drift.go:123-137 | error without security groups in the status; otherwise drifted exactly when the sets differ |
| `Drift.IsNodeClassDrifted` | pkg/cloudprovider/drift.go:37-74 | an error when a read of the instance, the types, the VNICs, groups or subnets fails; otherwise, for any VNICs, all checks run and the first reason in the order image, security groups, subnet is reported |
| `Drift.VerdictIs` | pkg/cloudprovider/drift.go:37-137 | an error for an unknown type name or an empty part of the status; else image drift, else security group drift if the sets differ, else subnet drift if a subnet is not in the status, else none |
| `Drift.FindTypeIs` | pkg/cloudprovider/drift.go:82-85 | the type is the first of that name |
| `Drift.LaunchedNotDriftedExactly` | pkg/cloudprovider/drift.go:37-137 | an instance checked against the status it was launched from is not drifted if and only if there are security groups, its subnet is in the status, and the first type of its name takes the same image |
| `Drift.LaunchedNotDrifted` | pkg/cloudprovider/drift.go:77-97 | that is so whenever types of one name agree on architecture and GPUs and images ask for nothing else |
| `Drift.BuiltStatusNotDrifted` | pkg/cloudprovider/drift.go:77-97 | in particular with a status built from the listed images and types that are sizes of one shape |
| `Drift.LaunchThenCheck` | pkg/cloudprovider/drift.go:37-74 | the launch and check methods agree so, whatever other VNICs are attached, as long as the groups and subnets are found |
| `Listing.RemoveExcludingChars` | pkg/providers/instance/instance.go:235-246 | what is left of the tags under some order of the map, cut at 48 |
| `Listing.SafeTagKeyAt` | pkg/utils/oci.go:44-46 | dots and spaces become underscores, and all else stays |
| `Listing.CleanedSize` | pkg/providers/instance/instance.go:235-246 | at most 48 tags are left, and exactly the lesser of 48 and their number when their cleaned keys differ |
| `Listing.GetTags` | pkg/providers/instance/instance.go:218-232 | in each namespace the static tags overridden by the user's |
| `Listing.OwnTagsOnly` | pkg/providers/instance/instance.go:218-232 | without user tags an instance carries exactly the four static tags under their cleaned keys |
| `Listing.TaggedIsManagedExactly` | pkg/providers/instance/instance.go:218-246 | every launched instance carries the managed-by tag, for all map orders, if and only if no user tag turns into its key with another value |
| `Listing.ManagedIs` | pkg/providers/instance/instance.go:326-332 | an instance is managed if and only if its tag karpenter_sh/managed-by in the namespace is the cluster's name |
| `Listing.ManagedByOverridden` | pkg/providers/instance/instance.go:228-230 | a user's own managed-by tag may leave an instance unmanaged |
| `Listing.List` | pkg/providers/instance/instance.go:310-340 | for any pager and number of rounds: still running exactly when the loop has not ended by then, otherwise the managed instances of all pages in order, or an error if the chain ends in one |
| `Listing.ListingEndsExactly` | pkg/providers/instance/instance.go:311-337 | the loop ends if and only if the chain of pages is finite and avoids the token "0" |
| `Listing.ZeroTokenRunsOn` | pkg/providers/instance/instance.go:311-337 | two pages with the token "0" between them are listed for ever |
| `Listing.ListsExactlyManaged` | pkg/providers/instance/instance.go:328-332 | an instance is listed if and only if it is on some page and carries the cluster's managed-by tag |

## Left out

- Listing.List: takes the number of rounds that are watched, because the loop need not end; `Listing.ListingEndsExactly` says when it does.
- GarbageCollector.Controller.Reconcile: nodes are keyed by provider ID, so two nodes of one provider ID and reused node names are not modelled; the limit of ten workers is dropped in favour of any interleaving.
- Retries.RetryBoundExactly: the catalogue and its prices stay fixed over the window, though they are refreshed from the cloud and the price list meanwhile; assumes that nothing deletes from or flushes the cache during the run, as nothing in the provider does; zone and capacity type labels of a type are matched through its offerings only.
- Selectors.Provider.List: all requests of one call are answered at one instant, so a change of the API in the middle of a call is not modelled.
- Catalogue.FlexSizesEnumerate: integers are unbounded, so the wrap-around of int64 products of absurdly large list entries is not modelled.
- Pricing.PriceMonotone: rounding of float32 and overflow to infinity are not modelled.
- Drift.LaunchFrom: of the launch request only image, subnet, security groups and the check for addresses are modelled.
- ZoneMerge.ListInstanceType: the paging of ListShapes (the same loop as in `Listing`) and the cache of the merged catalogue for five minutes are not modelled; a domain without a colon, on which the code panics, is excluded.
- The in-place `sort.Slice` calls are sorts of values; which of two equal elements comes first does not matter because keys are unique.
- Nil dereferences of optional fields (GPUs, local disks, image IDs) are not modelled; the fields are plain values.
- Requirements with the operators NotIn, Gt and Lt, and minimum values: requirements are sets of values, any value, or absence.
- A regular expression made of a shape name with special characters; names are matched literally between word boundaries.
- The security group provider repeats the selection and cache of the subnet provider.
- The price provider's lock and its download of the price list.
- Boot volume, block devices, agent and launch options, metadata and user data of the launch request: copied fields.
- Bootstrap scripts, metrics, events, logging, the tagging controller, authentication and SDK retry policy: no properties of interest here.
