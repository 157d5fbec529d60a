# A verified model of chia-operator

chia-operator runs Chia components on Kubernetes. Five controllers watch custom resources (`ChiaNode`,
`ChiaFarmer`, `ChiaHarvester`, `ChiaWallet` and `ChiaCA`), derive Kubernetes objects from them, apply
those one at a time, and report `Ready`. This project models what the controllers do and proves what
they promise. `dafny verify dfyconfig.toml` checks all of it.

## How the model is built

1. **The component controllers as a protocol** (`Protocol`, `Runs`, `Interleaving`, `Reconcile`). Users,
   runs, failures and crashes of the operator are steps over one cluster, in any interleaving. A run reads
   one version of its resource from a cache that may lag, and that goes back only when the operator starts
   again. `ReconcileResource` either fails with no effect or makes the object at its key equal to the
   desired one. The status update fails if the resource changed since it was read. The protocol is stated
   over any manifest compiler that keeps resources apart; that the operator's compiler does is a theorem.
   `Reconcile` holds the `Reconcile` methods themselves as sequential code on a mutable server, with
   arbitrary interference between any two calls, proved to be runs of the protocol.
2. **The ChiaCA controller as a protocol** (`GeneratorObjects`, `CAProtocol`, `CATheorems`, `CARuns`,
   `CADelivery`, `CASync`, `CAEffects`, `CARerun`, `CACommute`, `CAReconcile`, `CAInterleaving`). The same,
   with the generator's pods as further processes. A pod may try any verb on any Secret; the RBAC objects
   in the cluster decide what it may do. The cache may miss a Secret that exists, and may show one that is
   gone, but never one that never was. `Joint` puts both protocols into one process over one set of objects
   and shows that it is the two side by side.
3. **The manifest compiler** (`Names`, `Decimal`, `Common`, `NodeController`, `KeyedControllers`,
   `HarvesterController`, `Manifests`, `PlotTheorems`, `PodTheorems`, `ServiceTheorems`). What the code
   builds by appending in loops and branches is proved equal to a specification, and the theorems say what
   the assembled objects then hold, in literal names, ports and paths. An assembly that panics (a nil
   dereference, or a quantity that the parser refuses) has the outcome `None`; the panic then ends the
   operator's process in the protocol.
4. **Labels and selection** (`GoHeap`, `Labels`, `Selection`). Go maps are heap objects, and each round of
   a `range` loop takes an arbitrary remaining key.
5. **Deep copy** (`PartCopy`, `DeepCopy`). Pointers, maps and slices are heap objects. A struct is
   first copied as it stands and then has each reference replaced. A region is a set of heap objects; the
   theorems say that the copy's region is new and that what a reader sees is unchanged.

A nil pointer, map or slice is `None` on values and `null` on the heap; an empty map or slice is a
different value.

## Where the code departs from its documentation

The model follows the code. Each departure is stated and proved, with the exact condition under which
the code does what is documented.

- The CHIA_ROOT claim of a farmer, harvester or wallet is read from the host path entry
  (`internal/controller/chiaharvester_controller.go:303`), against `api/v1/chiacommon_types.go:95-98`:
  `Common.ChiaRootAsDocumentedIff`, `Common.ClaimAloneFails`.
- The node's StatefulSet names `<name>-headless`, but the headless Service is `<name>-node-headless`
  (`internal/controller/chianode_controller.go:324` and `:213`): `ServiceTheorems.GoverningServiceOf`.
- `Ready` of a `ChiaCA` should say that the Secret is there (`api/v1/chiaca_types.go:26-28`). It is
  not written if the first query finds the Secret (`CADelivery.PreexistingSecretIsNotReported`,
  `CATheorems.ReadyNeedsAMiss`), nor if the Secret turns up after round 100
  (`CADelivery.SecretComesTooLate`); `CARuns.RunWritesReadyIff` says exactly when a run writes it. And it
  is never taken back: it outlives an edit that names another Secret, and the Secret itself
  (`CADelivery.ReadyOutlivesEdit`, `CADelivery.ReadyOutlivesSecret`); `CATheorems.MisreportsIff` says
  exactly which steps make it wrong.
- `DeepCopyInto` onto the input itself, which `DeepCopy` never does, loses what the references held
  (`api/v1/zz_generated.deepcopy.go:422-433` for a list): `DeepCopy.DeepCopyInto` has the exact condition for
  a list, `DeepCopy.SelfCopyLoses` an instance, and `PartCopy` has it for storage, CHIA_ROOT, plots, metadata
  and exporter.

## Model

| member | source | states |
|---|---|---|
| Protocol.OperatorIsLawful | internal/controller/chianode_controller.go:52-124 | The operator's own manifest compiler puts every derived object at a key that depends only on the resource's kind, namespace and name, and no two resources, and no two steps of one, share a key |
| Protocol.StepKeepsInv | internal/controller/chianode_controller.go:52-124 | Every step of any user, run, failure or crash keeps the invariant: runs hold what they applied, `Ready` resources have all their objects, and the cluster holds nothing but objects assembled from some version of some resource |
| Protocol.TraceInv | internal/controller/chianode_controller.go:52-124 | The invariant holds in every reachable state |
| Protocol.PublishIsTruthful | internal/controller/chianode_controller.go:112-121 | When `Ready` is written, every derived object is in the cluster just as assembled from the current spec, and none of them panics |
| Protocol.ReadyMeansPresent | api/v1/chianode_types.go:96-98 | In every reachable state `Ready` means that all derived objects, the workload among them, exist |
| Protocol.ReadyNeedsAssembly | internal/controller/chianode_controller.go:100-121 | A resource none of whose versions can be assembled without a panic is never `Ready` |
| Protocol.ReadyWasPublished | internal/controller/chianode_controller.go:112-121 | `Ready` is always the work of a run of the resource's own since it was last created, never a leftover of an earlier one of its name |
| Protocol.OnlyCreateTakesReadyBack | internal/controller/chianode_controller.go:112-121 | `Ready` is set by a run's status update alone, and once set neither an edit nor a deletion, a failure or a crash takes it back |
| Protocol.ReadyOutdatesReaders | internal/controller/chianode_controller.go:113-119 | Setting `Ready` is itself an update: in every later state no run that had read the resource before can write its status |
| Protocol.NoRunOutlivesACrash | internal/controller/chianode_controller.go:405-418 | Every run that is going on was started after the last crash: an assembly that panics, for whichever resource, ends the runs of all |
| Protocol.StepKeepsSynced | internal/controller/chiaharvester_controller.go:66-102 | Once a resource is in sync, no later run of its own on however stale a version, no failure, crash or other resource puts it out of sync; only a user can, or a restart after which the cache shows an old version again |
| Protocol.ForgettingUnsyncs | internal/controller/chiaharvester_controller.go:55-92 | And such a restart does, where the old version asks for other objects |
| Protocol.SettledIsSynced | internal/controller/chiaharvester_controller.go:66-102 | A resource that has had an error-free run after the last such step is in sync, whatever else was interleaved |
| Protocol.SettledPart | internal/controller/chianode_controller.go:52-124 | In every history, whatever is not settled: each resource that has had such a run has its objects in the cluster as its current spec asks, and every object there is one of those or lies at a place of a resource that has not had one (it is deleted, waits for its run, or cannot be assembled) |
| Protocol.SettledAgree | internal/controller/chiafarmer_controller.go:48-102 | Two histories in each of which a resource is settled with the same spec agree on each of its objects, whatever else happened in either |
| Protocol.Convergence | internal/controller/chianode_controller.go:52-124 | When all resources that exist have had such a run, the cluster holds exactly the union of what their current specs ask for, but for objects at the places of deleted resources |
| Protocol.Confluence | internal/controller/chiafarmer_controller.go:48-102 | Two histories that end in the same existing resources end in the same objects, but for those at the places of deleted resources, however their runs were interleaved, failed or repeated |
| Protocol.StepsCommute | internal/controller/chiawallet_controller.go:48-102 | Steps about different resources write disjoint keys, neither enables nor disables the other, and they commute |
| Runs.RunEffect | internal/controller/chianode_controller.go:52-110 | A run that reads a version and applies m objects can take place and leaves exactly those m objects written, in order |
| Runs.FailStop | internal/controller/chiaharvester_controller.go:66-92 | A run taken alone that fails at its m-th call has applied exactly the objects before it: those are as assembled, every other object is untouched, and no status changed |
| Interleaving.FailStop | internal/controller/chiaharvester_controller.go:66-92 | However the steps of others are interleaved with it: a run that fails after m applies leaves those m objects as assembled from what it read, its other places as they were before it, and sets no `Ready` |
| Runs.CleanRunSettles | internal/controller/chianode_controller.go:52-124 | From every reachable state a resource that exists, is idle and can be assembled is settled and `Ready` after one clean run |
| Runs.RerunIsFixpoint | internal/controller/chianode_controller.go:52-124 | Running a settled resource again changes no object and no status |
| Reconcile.Server.GetResource | internal/controller/chianode_controller.go:57-68 | The read finds a version the cache may show, or nothing, or fails; nothing else changes |
| Reconcile.Server.ReconcileResource | internal/controller/common_controller.go:36-48 | The apply step: on an error the objects are as the call found them; otherwise they differ in this one, which is as desired |
| Reconcile.Server.UpdateStatus | internal/controller/chianode_controller.go:113-119 | The optimistic status update fails if and only if the call fails or the resource, as the call finds it, has changed since it was read |
| Reconcile.ApplyOrReturn | internal/controller/chianode_controller.go:71-78 | The block repeated for each object: on an error it returns the error with a result that is never read through a nil pointer |
| Reconcile.ReconcileNode | internal/controller/chianode_controller.go:52-124 | For every interference between its calls, the code's history is a read, its applies in plan order and one ending, and the returned result and error are those of that ending |
| Reconcile.ReconcileDeployed | internal/controller/chiaharvester_controller.go:49-103 | The same for the controllers of farmer, harvester and wallet |
| Reconcile.OnlyRepliesRequeue | internal/controller/chianode_controller.go:71-78 | A run that returns asks to be run again only with an error, and only as the result of the call that failed does |
| GeneratorObjects.SetupObjectsAtKeys | internal/controller/chiaca_controller.go:192-249 | Account, role and binding lie at `<name>-chiaca-generator`, the Job at `<name>` |
| GeneratorObjects.SetupOrder | internal/controller/chiaca_controller.go:67-92 | First the account, then the role, and then the binding, which refers to those two |
| GeneratorObjects.GeneratorMetadata | internal/controller/chiaca_controller.go:269-288 | All four generator objects bear exactly the name, managed-by, instance and `chiaca-owner` labels with their values, no annotations, the resource's namespace, and the resource as their one, controlling owner; the names are `<name>-chiaca-generator` and, for the Job, `<name>` |
| GeneratorObjects.AssembleJob | internal/controller/chiaca_controller.go:146-189 | The Job runs the image that the resource names, never restarting, as the generator's account, with exactly the pull secret that the resource names, and with none if and only if it names none |
| GeneratorObjects.GeneratorKeysDisjoint | internal/controller/chiaca_controller.go:195-232 | Generator objects of two resources never share a key |
| GeneratorObjects.GeneratorRulesGrant | internal/controller/chiaca_controller.go:212-224 | The role's rules grant a verb on Secrets if and only if it is `create` |
| CAProtocol.StepKeepsInv | internal/controller/chiaca_controller.go:67-136 | Every step of users, runs, generator pods and crashes keeps the invariant: how far each run has come, a Job implies its account, role and binding, every pod runs as some resource's account, `Ready` has evidence |
| CAProtocol.TraceInv | internal/controller/chiaca_controller.go:49-137 | The invariant holds in every reachable state of many resources and pods |
| CATheorems.JobIsLinked | internal/controller/chiaca_controller.go:67-110 | Whenever a Job exists its account, role and binding exist in its namespace and refer to one another by name |
| CATheorems.PodsMayOnlyCreate | internal/controller/chiaca_controller.go:212-224 | In every reachable state a generator pod is allowed a call on a Secret if and only if the call is `create` and in its own namespace |
| CATheorems.CAMaterialIsWriteOnce | chiaca-generator/start.sh:4 | Once a Secret exists its contents never change, whatever Jobs, retries and resources name it and whatever pods attempt, unless a user touches it |
| CATheorems.EverExisted | internal/controller/chiaca_controller.go:252-266 | What a cached query may show existed in some state of the past |
| CATheorems.ReadyHasEvidence | api/v1/chiaca_types.go:26-28 | A `Ready` resource has had a version whose Secret existed in some state of the past |
| CATheorems.ReadyIsTruthful | api/v1/chiaca_types.go:26-28 | While no user touches the resource after `Ready` was written, the Secret that it names has existed |
| CATheorems.ReadySecretExists | api/v1/chiaca_types.go:26-28 | And if no user ever removed that Secret, it exists now |
| CATheorems.MisreportsIff | api/v1/chiaca_types.go:26-28 | Departure, with its exact condition: from a reachable state where a resource is not `Ready` without its Secret, a step makes it so if and only if it is an edit of a `Ready` resource to a missing Secret, the removal of a `Ready` resource's Secret, or `Ready` being written for a Secret that only the cache still shows |
| CATheorems.OnlyCreateTakesReadyBack | internal/controller/chiaca_controller.go:119-127 | Departure: once `Ready` is set neither an edit nor a deletion, a failure or a crash takes it back |
| CATheorems.ReadyOutdatesReaders | internal/controller/chiaca_controller.go:120-126 | Setting `Ready` is itself an update: in every later state no run that had read the resource before can write its status |
| CATheorems.ReadyNeedsAMiss | internal/controller/chiaca_controller.go:101 | Departure: a resource is never `Ready` unless the first query of one of its runs missed the Secret |
| CARuns.PollUnroll | internal/controller/chiaca_controller.go:112-133 | The loop after i rounds in vain is those rounds followed by the loop from the next round |
| CARuns.RunWritesReadyIff | internal/controller/chiaca_controller.go:49-137 | For all outcomes a run writes `Ready`, and then once, if and only if the RBAC applies go through, the first query misses, the Job applies, some round of 1 to 100 is the first to find the Secret with no error before it, and the update goes through |
| CARuns.FoundIsReported | internal/controller/chiaca_controller.go:112-129 | A Secret that any of the rounds 1 to 100 is the first to find is reported, and that is the run's last call |
| CARuns.RunCalls | internal/controller/chiaca_controller.go:112-133 | A run that applied the Job and whose i-th round decides makes i + 1 queries and i - 1 sleeps; with all hundred rounds in vain it makes 101 queries and 100 sleeps exactly |
| CARuns.RunIsBounded | internal/controller/chiaca_controller.go:112-133 | At most 101 queries and 100 sleeps |
| CARuns.RunMakesJobIff | internal/controller/chiaca_controller.go:101-110 | The Job is applied, once, if and only if the RBAC applies and its own go through and the first query misses |
| CADelivery.SecretComesTooLate | internal/controller/chiaca_controller.go:112-133 | Departure: from every reachable idle state, a whole run in vain followed by the generator creating the Secret is a history; the Secret is there, nothing is left to run, and `Ready` is as before |
| CADelivery.ReadyOutlivesEdit | api/v1/chiaca_types.go:26-28 | Departure: a history after which `Ready` holds and the newly named Secret is missing |
| CADelivery.ReadyOutlivesSecret | api/v1/chiaca_types.go:26-28 | Departure: a history after which `Ready` holds and the Secret has been removed |
| CADelivery.ReadyWrittenForGoneSecret | internal/controller/chiaca_controller.go:119-123 | Departure: a history that writes `Ready` for a Secret that is gone |
| CADelivery.PreexistingSecretIsNotReported | internal/controller/chiaca_controller.go:94-101 | Departure: with the Secret in place beforehand a run without any error leaves `Ready` as it was |
| CADelivery.ScriptHitsItsSecret | chiaca-generator/start.sh:4 | The script, given the Job's environment, creates the very Secret that the resource names |
| CADelivery.DeliveryGoesThrough | internal/controller/chiaca_controller.go:67-133 | From every reachable state controller, pod and controller can bring an idle resource to `Ready` with its Secret in place, holding the new material unless there was some before; no other Secret changes |
| CASync.StepKeepsInPlace | internal/controller/chiaca_controller.go:67-110 | What each run has applied stays in place as assembled, whatever other runs apply |
| CASync.DeliveredIsSynced | internal/controller/chiaca_controller.go:67-127 | After a run that wrote `Ready`, account, role, binding and Job are in the cluster as assembled from the current spec, until a user touches the resource or a restart makes the cache go back |
| CASync.DeliveredJobFits | internal/controller/chiaca_controller.go:146-189 | And then the Job in the cluster runs the image that the resource names now, with exactly the pull secret that it names now |
| CAEffects.ForgettingUnsyncs | internal/controller/chiaca_controller.go:55-110 | A restart after which the cache shows an old version with another image, Secret or pull secret does put a delivered resource out of sync: a run that misses the Secret puts the old Job back |
| CASync.DeliveredPart | internal/controller/chiaca_controller.go:67-127 | In every history: the four objects of each resource delivered since it was last disturbed are as its current spec asks, and every account, role, binding and Job is one of those or lies at a place of a resource that is not delivered |
| CASync.Convergence | internal/controller/chiaca_controller.go:67-127 | When all ChiaCA resources that exist are delivered, accounts, roles, bindings and Jobs are exactly the union of what they ask for, but for objects at the places of deleted resources |
| CAEffects.FailStop | internal/controller/chiaca_controller.go:67-110 | A run taken alone whose n-th apply fails has applied exactly the objects before it; every other object and all Secrets, pods and statuses are as they were |
| CAInterleaving.AnyRunLeaves | internal/controller/chiaca_controller.go:49-137 | However the steps of others are interleaved with it and whatever its outcomes: a run leaves the objects it applied as assembled from what it read, and its other places as they were before it |
| CAInterleaving.FailStop | internal/controller/chiaca_controller.go:67-110 | Under any interleaving a run whose n-th apply fails leaves exactly the objects before it as assembled, its other places as they were, and sets no `Ready` |
| CARerun.AnyRunGoesThrough | internal/controller/chiaca_controller.go:49-137 | From every reachable state in which a resource is not being run, a run with any outcomes, but that no query finds a Secret that never was, can take place and ends |
| CARerun.RerunIsFixpoint | internal/controller/chiaca_controller.go:49-137 | Running a delivered resource again, with any outcomes of its applies, queries and update that the cache allows, changes no object, no Secret, no pod and no status |
| CARerun.DeliveryLasts | internal/controller/chiaca_controller.go:49-137 | However a history goes on after a delivery, while nothing disturbs the resource its four objects stay just as they are |
| CACommute.StepsCommute | internal/controller/chiaca_controller.go:67-133 | Steps about different ChiaCA resources write disjoint keys, neither enables nor disables the other, and they commute |
| Joint.SideBySide | cmd/main.go:80-114 | All five controllers in one process over one set of objects: every history is a history of each protocol and leads both where it leads the machine, a crash in one stopping the runs of all |
| Joint.AcrossCommute | cmd/main.go:80-114 | A step of a component and a step of the ChiaCA controller, its pods or its users commute, unless the component panics |
| Joint.AllAccounted | cmd/main.go:80-114 | In every history of all five controllers: the objects of each settled component and each delivered ChiaCA resource are as its current spec asks, and every object of the cluster is one of those or lies at a place of a resource that is neither |
| Joint.Convergence | cmd/main.go:80-114 | When all resources of all five kinds that exist are settled, the whole cluster is exactly the union of what they ask for, but for objects at the places of deleted resources |
| Joint.OperatorConverges | cmd/main.go:80-114 | Both, and the limits on generator pods, hold for the operator's own manifest compiler |
| Joint.PodsMayOnlyCreate | internal/controller/chiaca_controller.go:212-224 | Nothing that components do lets a generator pod do more than create Secrets in its namespace |
| CAReconcile.Server.GetCASecret | internal/controller/chiaca_controller.go:252-266 | Three-way answer; a Secret that never existed cannot be found |
| CAReconcile.Server.UpdateStatus | internal/controller/chiaca_controller.go:121-127 | The update fails if and only if the call fails or the resource, as the call finds it, has changed since it was read |
| CAReconcile.Server.ReconcileResource | internal/controller/common_controller.go:51-68 | The apply step for account, role, binding and Job: no effect on an error, otherwise this one object as desired |
| CAReconcile.ApplyRbac | internal/controller/chiaca_controller.go:67-92 | The three RBAC applies in order, returning at the first that fails |
| CAReconcile.PollRound | internal/controller/chiaca_controller.go:112-132 | One round of the loop: found, broken, or sleep |
| CAReconcile.AwaitSecret | internal/controller/chiaca_controller.go:112-133 | The loop makes exactly the specified calls for the answers it meets |
| CAReconcile.ReconcileCA | internal/controller/chiaca_controller.go:49-137 | For every interference between its calls the code makes exactly the calls of a specified run, and its result and error are that run's |
| CAReconcile.OnlyFailedAppliesRequeue | internal/controller/chiaca_controller.go:67-110 | A run is asked for again exactly as the result of the apply that failed says, and else not at all |
| CAReconcile.GivesUpInSilence | internal/controller/chiaca_controller.go:112-136 | A run that asked in vain a hundred times returns no error and asks for no other run |
| Decimal.RoundTrip | internal/controller/chiaharvester_controller.go:338 | Decimal text parses back to the number it was made from |
| Names.SuffixFree | internal/controller/chianode_controller.go:137-251 | Whatever name stands before it, a Service name's suffix is recognised: the ten suffixes form a suffix-free code |
| Names.ServiceNameInjective | internal/controller/chiaharvester_controller.go:116-153 | A Service name determines component kind, role and resource name, for all strings |
| Names.WorkloadNameInjective | internal/controller/chiafarmer_controller.go:211-213 | The same for StatefulSets and Deployments |
| Names.GeneratorNameInjective | internal/controller/chiaca_controller.go:195-232 | The same for the generator's account, role and binding |
| Manifests.AssembledAtDerivedKeys | internal/controller/chianode_controller.go:70-110 | What is assembled lies at the key derived from the resource's own key, whatever its spec |
| Manifests.DerivedKeysDisjoint | internal/controller/chianode_controller.go:70-110 | Derived keys of different resources or steps differ |
| Manifests.AssembleWorkload | internal/controller/chiaharvester_controller.go:175-278 | The StatefulSet or Deployment put together step by step is the specified one, whose parts the rows of `PodTheorems`, `PlotTheorems` and `ServiceTheorems` describe, or the assembly panics |
| Common.AppendChiaRoot | internal/controller/chiaharvester_controller.go:294-328 | The branch with its flag adds one volume, the specified one, or dereferences nil |
| Common.ChiaRootAsDocumentedIff | api/v1/chiacommon_types.go:95-98 | Departure: the volume is the documented one if and only if no claim is asked for or a host path entry spells the claim's name; assembling fails if and only if a claim is asked for without a host path entry |
| Common.ClaimAloneFails | internal/controller/chiaharvester_controller.go:303 | Departure: a claim on its own makes the assembly fail |
| KeyedControllers.GetChiaVolumes | internal/controller/chiafarmer_controller.go:293-352 | The volumes of farmer and wallet |
| NodeController.GetChiaVolumesAndTemplates | internal/controller/chianode_controller.go:384-440 | Volumes and claim templates of a node, or a panic for a refused quantity |
| ServiceTheorems.GoverningServiceOf | internal/controller/chianode_controller.go:324 | Departure: the Service that a node's StatefulSet names is a Service of this operator if and only if the node is called `<x>-node`, and then it is the headless Service of the node called `<x>`, never its own |
| HarvesterController.GetChiaVolumes | internal/controller/chiaharvester_controller.go:281-367 | The two loops over sparse lists build the specified volumes |
| HarvesterController.GetChiaVolumeMounts | internal/controller/chiaharvester_controller.go:370-417 | The two separate loops over the same lists build the specified mounts |
| PlotTheorems.VolumesAndMountsAgree | internal/controller/chiaharvester_controller.go:281-417 | In the assembled Deployment volume names and mount names are one sequence without duplicates, for all sparse lists |
| PlotTheorems.PlotRoundTrip | internal/controller/chiaharvester_controller.go:330-364 | Reading the indices out of the volume names of the Deployment's own template gives back exactly the non-nil entries of both lists at their positions with their claims and paths, and there is no further plot volume |
| PlotTheorems.AppendClaim | internal/controller/chiaharvester_controller.go:334-346 | Appending a claim, be it the first of all, adds one binding to the Deployment's pod, or none for nil, and changes no other |
| PlotTheorems.AppendHost | internal/controller/chiaharvester_controller.go:349-361 | The same for a host path |
| PlotTheorems.RemoveClaim | internal/controller/chiaharvester_controller.go:334-346 | Setting a claim to nil removes its binding and changes no other |
| PlotTheorems.RemoveHost | internal/controller/chiaharvester_controller.go:349-361 | The same for a host path |
| PodTheorems.PlotMountsReadOnly | internal/controller/chiaharvester_controller.go:386-414 | A mount of the chia container is writable if it is the CA, the key or CHIA_ROOT; any other is a plot mount, read-only in a directory of its own under `/plots/` |
| PodTheorems.NoMountShadows | internal/controller/chiaharvester_controller.go:370-417 | In the pods of all four components no mount is at or below another's path |
| PodTheorems.PodClosure | internal/controller/chiafarmer_controller.go:257-274 | In the assembled workload's own template every name has exactly one source among its volumes and claim templates, the chia container mounts each of them once and nothing else, every mount of both containers has a source, and both look for CHIA_ROOT where they mount it |
| PodTheorems.CAIsMounted | internal/controller/chiafarmer_controller.go:297-305 | For all four components: where the container is told to look for the CA it finds the Secret named by `caSecretName` |
| PodTheorems.KeyIsMounted | internal/controller/chiafarmer_controller.go:307-315 | Where a farmer or wallet is told to look for its key it finds that key of the Secret named by `keys.name` |
| PodTheorems.ChiaRootIsMounted | internal/controller/chiaharvester_controller.go:294-328 | In the workload of a farmer, harvester or wallet both containers find at `/chia-data` the claim spelled by the host path entry, the host path, or an empty directory; there is no workload if and only if a claim is asked for without a host path entry |
| PodTheorems.NodeChiaRoot | internal/controller/chianode_controller.go:384-440 | In a node's StatefulSet a claim (its class, its request, mounted by one machine at a time) beats a host path, which beats an empty directory; there is no StatefulSet if and only if the claim's quantity is refused |
| PodTheorems.WorkloadRuns | internal/controller/chianode_controller.go:303-366 | The chia container runs `spec.image`, the exporter the image the user names or, if that is empty, the default one; node selector, annotations and a node's replicas are those of the spec |
| PodTheorems.EnvNamesUnique | internal/controller/chiaharvester_controller.go:420-483 | The environment of the assembled chia container names each variable once, and no other than the eleven that are decoded |
| PodTheorems.EnvRoundTrip | internal/controller/chiafarmer_controller.go:355-413 | The environment of the assembled chia container decodes to the normalised settings, for all strings and all four components |
| ServiceTheorems.ObjectNames | internal/controller/chianode_controller.go:134-248 | Which Services each component has, under which names, in which order, and its workload last |
| ServiceTheorems.ServiceKinds | internal/controller/chianode_controller.go:173-270 | Over all Services of a resource: the one for peers has the type that the user asks for and all others `ClusterIP`; a Service is headless if and only if it is a node's `<name>-node-headless`, and keeps traffic local if and only if it is a node's `<name>-node-internal` |
| ServiceTheorems.ServicePorts | internal/controller/chiaharvester_controller.go:124-170 | Every Service offers exactly the daemon, peers and RPC ports with the numbers of its component, but for the one for metrics, which offers those |
| ServiceTheorems.SelectorsFit | internal/controller/chianode_controller.go:317-334 | Service selectors equal the pod labels; the workload selects by exactly the four fixed labels, so that no edit of the spec changes its selector, and selects its own pods |
| ServiceTheorems.ObjectsBelong | internal/controller/chianode_controller.go:134-270 | Every derived object has the resource's namespace and annotations, and the resource as its one, controlling owner |
| ServiceTheorems.ObjectLabels | internal/controller/chianode_controller.go:517-529 | Every derived object and every pod bears the four fixed labels with their values, whatever the user wrote, and otherwise exactly the user's labels; the Service for metrics bears the exporter's besides, which win |
| ServiceTheorems.PortsResolve | internal/controller/chiaharvester_controller.go:113-262 | Every port of every Service of a resource leads to a container port of that name and number in its pods |
| ServiceTheorems.NodePortsAgree | internal/controller/chianode_controller.go:544-553 | `testnet` is told if and only if the port is 58444, in three Services and in the container alike |
| ServiceTheorems.FarmerPortAgrees | internal/controller/chiaharvester_controller.go:470-480 | The port told to a harvester, in text and as decoded, is the one every farmer's Service offers to peers |
| GoHeap.RangeInto | internal/controller/chiafarmer_controller.go:418-422 | Ranging over a map in any order copies it over the target and leaves the source alone |
| Labels.GetCommonLabels | internal/controller/common_controller.go:71-75 | Writes the two keys into the map it was given and returns that map |
| Labels.GetComponentLabels | internal/controller/chiafarmer_controller.go:416-427 | For any number of maps and any key orders: the last-wins override with the reserved keys on top, in a new map; the user's maps are untouched |
| Labels.LastAdditionWins | internal/controller/chiaharvester_controller.go:486-498 | A key is bound if and only if some map binds it, and to what the last such map says |
| Labels.MergedLabelsMeaning | internal/controller/chianode_controller.go:517-529 | Reserved keys keep their fixed values whatever the user wrote; every other key comes from the last map that binds it |
| Selection.WorkloadSelectorKeys | internal/controller/chiafarmer_controller.go:219-221 | A workload's selector is exactly the four reserved keys |
| Selection.SelectsOwnPods | internal/controller/chiafarmer_controller.go:219-225 | A workload's selector matches its own template labels whatever the user adds |
| Selection.SelectsIff | internal/controller/chiaharvester_controller.go:493-495 | A workload's selector matches another resource's pods if and only if they share the name and either the kind or a user label claiming this kind's ownership |
| Selection.ServiceSelectsNoMore | internal/controller/chiafarmer_controller.go:143 | A Service selects no pod that its workload would not select |
| PartCopy.FillSlots | api/v1/zz_generated.deepcopy.go:928-934 | The loop over a slice of nullable pointers, into a new array of nil: nil slots stay nil, every other pointer is new and shows what the old one showed, also where both slices are one |
| DeepCopy.CopyMap | api/v1/zz_generated.deepcopy.go:32-38 | A map: nil stays nil, an empty one stays empty, the copy is new |
| PartCopy.PlotsInto | api/v1/zz_generated.deepcopy.go:923-947 | Only the target changes; it reaches nothing but new objects, and shows what the input showed if and only if it is not the input itself or both lists are nil, empty or all nil; copied onto itself each list shows as many nil entries |
| PartCopy.ChiaRootInto | api/v1/zz_generated.deepcopy.go:698-710 | The same; copied onto itself it shows zero values for the claim and the host path that were there, so that nothing is lost if and only if they were zero or nil |
| PartCopy.StorageInto | api/v1/zz_generated.deepcopy.go:960-972 | The same for pointers to structs that hold references of their own; copied onto itself it keeps what it showed if and only if CHIA_ROOT and plots are each nil or hold nil references only |
| PartCopy.MetadataInto | api/v1/zz_generated.deepcopy.go:30-46 | The same for two maps; copied onto itself it keeps what it showed if and only if both are nil or empty |
| PartCopy.ExporterInto | api/v1/zz_generated.deepcopy.go:148-157 | The same for the exporter's map beside its other fields |
| DeepCopy.CopyConfig | api/v1/zz_generated.deepcopy.go:367-383 | Equal view of the settings, nothing shared with the input |
| DeepCopy.CopySpec | api/v1/zz_generated.deepcopy.go:454-481 | Equal view, nothing shared with the input |
| DeepCopy.CopyHarvester | api/v1/zz_generated.deepcopy.go:340-346 | Equal view, nothing shared with the input |
| DeepCopy.DeepCopyInto | api/v1/zz_generated.deepcopy.go:422-433 | Only the target changes; it then reaches nothing but new objects, and shows what the input showed if and only if it is not the input itself or there is nothing to lose (a nil or empty list, or zero items only); a list copied onto itself shows as many zero items |
| DeepCopy.SelfCopyLoses | api/v1/zz_generated.deepcopy.go:422-433 | Departure: a list with a named resource, copied onto itself, shows one zero item |
| DeepCopy.DeepCopy | api/v1/zz_generated.deepcopy.go:436-443 | Into a new list: equal view, nothing shared |
| DeepCopy.CopyOutlivesInput | api/v1/zz_generated.deepcopy.go:422-433 | After the copy all older objects may change in any way: the copy still shows what the input showed |
| DeepCopy.InputOutlivesCopy | api/v1/zz_generated.deepcopy.go:422-433 | The copy may change in any way: the input still shows what it showed |

## Left out

- The internals of `ReconcileResource`, of the controller-runtime queues and of the API server: only the contracts named above are used. One resource is never reconciled twice at a time, and outsiders neither write nor delete derived objects.
- Removal of derived objects by the Kubernetes garbage collector after their owner is deleted: convergence says exactly what is there for the resources that exist, and that anything else lies at the places of deleted ones. Drift made by outsiders is not repaired by the code and not modelled.
- Probes, security contexts, resource requirements, pull policies and protocols of ports: passed through by the compiler unchanged.
- The Kubernetes quantity parser: a storage request is given together with whether the parser accepts it.
- One method each stands for code that the controllers repeat with other names: `ReconcileDeployed` for three of them, `AssembleWorkload` for four, `ApplyOrReturn` for the block around each apply. Stretches of the `Reconcile` of CA and node are methods of their own.
- The merge of labels is modelled on heap maps; the compiler then uses the merged map as a value, since nothing writes to it afterwards. Slices built by `append` are sequences, without capacity or spare elements.
- Manifests.AssembleWorkload: probes, security contexts, resource requirements and pull policies are not in the objects.
- DeepCopy.CopyConfig: probes, resource requirements and the security context are third-party types that copy themselves and are not modelled.
- DeepCopy.CopySpec: the same, and the pod's security context. Settings, spec and the single resource are copied to targets apart from the input, which is where the copy of a list puts them.
- DeepCopy.CopyHarvester: the object metadata's own maps and slices are third-party too; the metadata is a value here.
- DeepCopy.DeepCopyInto: list metadata and the items' object metadata are third-party, as above; a slice is an array without offset or capacity.
- The deep copies of node, farmer, wallet and CA types, and the `DeepCopy` and `DeepCopyObject` wrappers: the same pattern again.
- Real time: sleeps are counted, not timed.
- Start-up in `cmd/main.go`, logging, leader election, metrics, and the YAML under `config/`.
