# Infranetes: a verified model of its sandbox, volume and container cores

Infranetes serves the Kubernetes container runtime interface by running each pod in a virtual machine of a cloud.
This project models the parts of it that keep state or parse, and proves what they promise:

- **The concurrent handlers** (`Protocol`, `LockOrder`, `OnceOnly`, `AddressBooks`, `ProtocolRuns`, `LateDeletes`,
  `Handlers`, `LoneHandlers`, `ProtocolWitnesses`). Any number of handlers of the manager with the aws provider run interleaved; every lock
  operation, and every access to shared data between two of them, is a step of its own. Go's RWMutex is modelled with
  its waiting writers, which keep out new readers. The cloud, the VMs and the order of map walks are decided by the
  environment at each step. A handler that would dereference nil, write to a nil map or assert a type on an empty pool's
  answer ends the process (`panicked`, with its cause), so those situations are part of the model and not excluded.
  `ledger`, `shifts`, `attachLog`, `bootLog` and the last two arguments of `Delete` are auxiliary: no step decides
  anything by them.
  `Handlers` fixes the accesses a handler of each request makes before it returns, in any interleaving; `LoneHandlers`
  proves that a handler that runs alone makes of the pool, vmMap and the pods what its step of `Sandboxes` does.
- **The sandbox lifecycle with each handler as one step** (`Sandboxes` by value, `Managers` on objects). `Managers`
  proves each handler of the manager against its step in `Sandboxes`; `Sandboxes` proves what every run of those steps
  keeps, and exactly which steps break it.
- **The deque of free addresses** (`Deques` in Deque.dfy): the ring of doubly linked elements of Go's container/list.
- **The EBS device allocator** (`EbsDevices` by value, `EbsVolumes` on the providerData object and its two loops).
- **The mount registry and the path test** (`Mounts`).
- **Container names, labels and ids** (`Strings`, `ContainerNames`, `Labels`, `DockerContainers`) and **the fake
  container provider** (`FakeContainers`).

`dafny verify dfyconfig.toml` checks the whole project.

Assumptions about the outside: addresses the instances report at import are their own and come from the pool; in the
concurrent model the VM gets the address it asked for. In the one-step model that last assumption is not made: it is the
condition `Honest`, and `StepConserves` proves that conservation holds exactly under it.

## What the proofs found

- *Import.* An instance that is running but does not answer (`ListInstances` skips it or gives up) keeps its VM while
  its address stays in the pool. `ImportLive` proves that the pool is free of live VMs after the import exactly when
  every instance answered.
- *A boot that fails after its VM exists.* For an image pod nothing records the VM: a later removal does not destroy it
  and frees its address. `StepKeepsLiveRight` proves that this and a wrong reported address are the only ways.
- *A boot after removal.* `PreCreateContainer` does not look at the client, so a `CreateContainer` that found its image
  pod before a removal and gets the state lock after it boots a VM on an address that is free again.
  `RemovedImagePodCanBoot` gives the run. `StepKeepsBooks` proves that the end of such a boot is the only step that
  upsets the books, and that it always does; `AddressesConserved` proves that the addresses are conserved at every moment
  of a run exactly when there is no such step. No run of a provider of traditional pods has one
  (`TraditionalPodsBootInTime`).
- *Late delete.* `removePodSandbox` frees the address before it deletes the map entry. `LateDeleteErases` proves that the
  delete erases the entry of another pod exactly when such a pod was listed under the address in the window and nothing
  touched its entry since. `LateDeleteIsHarmless` proves that this cannot happen while at most as many addresses are taken
  as the pool held at the release, and `LateDeleteCanErase` that for every pool one more is enough.
- *The nil client.* `RemovedIsNotReady` proves that a pod without a client is never ready exactly when every removal
  follows a stop of that pod; `RemovalWithoutStopCanPanic` gives the run in which a waiting status call dies without it.
- *Device letters.* A rejected AttachVolume uses up its letter for the life of the VM (`DeviceInvariant`).
- *Labels.* The comment in `MakeLabels` assumes that labels and annotations do not conflict; `ExtractOfMerge` gives the
  exact condition.
- *Container ids.* Two pods can have containers of one id exactly when one pod id followed by ":" begins the other
  (`IdsClash`). In no life of a manager (an import and any run of honest handlers) do two of its pods have such ids,
  whatever the configured base holds (`LivedIsSeparate`), so container ids are unique (`IdsUnique`).
- *Panics in removal and attach.* A removal dies on a nil client only if an earlier removal took it
  (`OnlySecondRemovalsPanic`); an attach dies on maps never made only in the mount loop of createContainer
  (`OnlyMountLoopsPanic`).

## Model

| member | source | states |
|---|---|---|
| ProtocolRuns.DeadlockFree | pkg/infranetes/internal.go:54-130 | in every state any run of concurrent handlers reaches, no set of them waits in a circle for each other's locks, and unless all have returned some handler can go on |
| Handlers.RequestHandled | pkg/infranetes/internal.go:36-334 | in any interleaving, the accesses a returned handler made are those its request asks for, in their order and on the pods, volumes and devices that what it found and was answered calls for |
| Handlers.StopIsCarriedOut | pkg/infranetes/internal.go:54-100 | a returned StopPodSandbox found no pod, no client or no list of containers, or has marked the pod as stopped and after that emptied the volumes of its providerData |
| Handlers.RemovalIsCarriedOut | pkg/infranetes/internal.go:102-130 | a returned RemovePodSandbox found no pod or could not destroy its VM, or has taken the pod's client, then given the address back, then deleted the entry |
| LoneHandlers.LoneHandlerDoesItsStep | pkg/infranetes/internal.go:36-334 | a handler that runs alone makes of pool, vmMap and the pods what its step in the one-step model does, with the answers it got; a new or booted pod has the client, the providerData and the volumes of its boot, a stopped one no volumes |
| LockOrder.ExecDisciplined | pkg/infranetes/internal.go:54-334 | from every access, whatever the shared data and the environment's answers, a handler goes on taking locks in strictly increasing rank, never one it holds, and releases them all |
| LockOrder.StepKeepsLockInv | pkg/infranetes/provider/common/poddata.go:59-127 | in every step locks exclude: a writer or waiting writer is alone in that role, and a writer shares with no reader |
| ProtocolRuns.NoRaces | pkg/infranetes/provider/common/poddata.go:59-127 | in no state of any run does a handler write the pool, vmMap, a pod or a providerData while another is at an access that uses it, and image boots of one pod are never two at a time; except that the end of an image boot writes its pod under a read lock |
| LockOrder.WaitsLeadUpward | pkg/infranetes/internal.go:187-213 | under the lock discipline whoever blocks a thread is not done, and waits, if at all, for a lock higher in the order |
| LockOrder.UpwardHasNoCircle | pkg/infranetes/internal.go:298-334 | where waiting leads upward no set of threads is such that each waits for one of the set |
| LockOrder.NoWaitCycle | pkg/infranetes/provider/aws/aws_pod.go:249-251 | under the lock discipline no set of threads is such that each waits for one of the set |
| ProtocolRuns.BootAtMostOnce | pkg/infranetes/provider/aws/aws_pod.go:249-303 | of all CreateContainer calls on one image pod in a run, at most one gets past PreCreateContainer with a boot |
| ProtocolRuns.OnlyTheBootReplaces | pkg/infranetes/provider/aws/aws_pod.go:297-300 | Booted, ProviderData and a new Client are set only by the end of that boot, which finds the pod unbooted, leaves it booted and installs the client and the providerData of the VM it booted |
| ProtocolRuns.BootedForGood | pkg/infranetes/provider/aws/aws_pod.go:262-266 | Booted never returns to false |
| ProtocolRuns.AttachAtMostOnce | pkg/infranetes/provider/aws/aws_pod.go:473-527 | the cloud accepts a volume at most once per booted VM in any interleaving of boot loop and createContainer loops |
| ProtocolRuns.DevicesDistinct | pkg/infranetes/provider/aws/aws_pod.go:473-527 | in every state of every run the volumes attached to one VM are on devices with distinct last letters |
| OnceOnly.AttachRefines | pkg/infranetes/provider/aws/aws_pod.go:473-556 | the two accesses of an Attach make of the maps what one call of the allocator does |
| OnceOnly.StepKeepsOnce | pkg/infranetes/internal.go:234-248 | the log of accepted attaches has no entry twice and is exactly what the attached maps record, and no pod is logged booted twice, after every step |
| OnceOnly.ExecChanges | pkg/infranetes/provider/common/poddata.go:21-37 | which access may change which field of a PodData or providerData that others can see |
| ProtocolRuns.AddressesConserved | pkg/infranetes/provider/aws/aws_pod.go:218-246 | at every moment of a run each address of the initial pool is in exactly one place (once in the pool, with one pod, with one handler, or dropped by an earlier failed boot), exactly when no boot of an image pod ends after the pod's removal |
| ProtocolRuns.TraditionalPodsBootInTime | pkg/infranetes/provider/aws/aws_pod.go:261-270 | a provider of traditional pods has no late boots |
| AddressBooks.StepKeepsBooks | pkg/infranetes/internal.go:102-130 | a step of any handler keeps pool, holders, carriers and vmMap in agreement exactly when it is not the end of a boot of a removed pod |
| LateDeletes.EntryHistory | pkg/infranetes/internal.go:41-48 | what vmMap lists under an address is what the last step that touched the entry listed there, or what was there before |
| LateDeletes.LateDeleteErases | pkg/infranetes/internal.go:120-127 | the delete of a removal erases the entry of another pod exactly when such a pod was listed under the address since the release and its entry not touched after that |
| LateDeletes.LateDeleteIsHarmless | pkg/infranetes/provider/aws/aws_pod.go:331-335 | if at most as many addresses are taken between release and delete as the pool held at the release, no pod is listed under the address in between, and the delete finds its own pod or nothing |
| LateDeletes.WaitsItsTurn | pkg/utils/deque.go:47-59 | in every run an address with n others before it in the pool stays there, one place further with each address taken, until n are taken |
| LateDeletes.ReleasedBefore | pkg/infranetes/internal.go:120-127 | a handler on its way to the delete has released the address of the same pod before |
| ProtocolWitnesses.LateDeleteCanErase | pkg/infranetes/internal.go:36-52 | for every pool a run in which one address more is taken than the pool held at the release, and the delete erases the entry of a new, living pod |
| ProtocolRuns.RemovedIsNotReady | pkg/infranetes/provider/common/poddata.go:196-226 | a pod without a client is never ready exactly when every removal follows a stop of that pod, and then no status call uses the nil client |
| ProtocolRuns.StatusPanics | pkg/infranetes/internal.go:132-147 | a status call dies exactly on a ready, booted pod without a client |
| ProtocolRuns.ReadyUntilStopped | pkg/infranetes/provider/common/poddata.go:129-134 | in every interleaving a pod is ready exactly until a stop of it |
| ProtocolRuns.StoppedForGood | pkg/infranetes/provider/common/poddata.go:209-230 | a stopped pod is not ready in any later state, and every status call reports it so |
| ProtocolWitnesses.RemovalWithoutStopCanPanic | pkg/infranetes/provider/common/poddata.go:136-141 | a run with a removal that no stop came before, in which a status call dies |
| ProtocolRuns.StepRemovePanics | pkg/infranetes/provider/common/poddata.go:136-141 | a removal dies exactly on a pod without a client whose VM, if it is booted, the cloud destroys |
| ProtocolRuns.OnlySecondRemovalsPanic | pkg/infranetes/internal.go:102-130 | and then an earlier removal took the client of the same pod |
| ProtocolRuns.OnlyMountLoopsPanic | pkg/infranetes/provider/aws/aws_pod.go:486-503 | an attach dies on maps that were never made only in the mount loop of createContainer, never in a boot loop |
| ProtocolWitnesses.RemovedImagePodCanBoot | pkg/infranetes/provider/aws/aws_pod.go:290-300 | a run in which an image pod is booted after its removal, its address free |
| Sandboxes.StepConserves | pkg/infranetes/provider/aws/aws_pod.go:331-335 | one handler keeps every address in exactly one of pool, pods and lost exactly when its VM reports the address asked for, or its random fake id is new |
| Sandboxes.StepKeepsLiveRight | pkg/infranetes/provider/aws/aws_pod.go:124-132 | one handler keeps "no free address has a live VM, a pod's VM is live exactly when booted" exactly when an image boot does not fail after its VM exists and gets the pod's address |
| Sandboxes.RunConserves | pkg/infranetes/internal.go:36-130 | both, over every run of honest handlers, the second when their boots are clean |
| Sandboxes.StepPod | pkg/infranetes/internal.go:36-130 | a create lists a ready pod with the uid of its request; only a removal takes it away, only a stop changes ready, only a boot that succeeds changes booted, nothing changes address or uid |
| Sandboxes.PodHistory | pkg/infranetes/internal.go:36-130 | over every honest run a listed pod has the uid of the last create that listed it and is ready exactly when no stop came since, or was there before and the same holds |
| Sandboxes.FailedRemoval | pkg/infranetes/internal.go:102-130 | a removal that finds no pod or cannot destroy its VM changes nothing |
| Sandboxes.FakeNeverLoses | pkg/infranetes/provider/fake/fake_pod.go:42-69 | with the fake provider free and held addresses are always the whole pool |
| Sandboxes.ImportConserves | pkg/infranetes/provider/aws/aws_pod.go:368-412 | import conserves the addresses whether or not the cloud lists its instances and whatever they answer |
| Sandboxes.ImportedPods | pkg/infranetes/provider/aws/aws_pod.go:376-408 | every imported pod is ready and booted, with the address and uid an instance answered with |
| Sandboxes.ImportLive | pkg/infranetes/provider/gcp/gcp_pod.go:319-372 | after import no free address has a live VM exactly when every instance was listed and answered |
| Managers.LifeConserves | pkg/infranetes/manager.go:43-58 | import and any run of honest handlers on a new provider's pool conserve it |
| Managers.PoolNoDup | pkg/infranetes/provider/aws/aws_pod.go:105-109 | the pool of a new provider holds no address twice |
| Managers.PoolRange | pkg/infranetes/provider/gcp/gcp_pod.go:69-72 | the addresses of a new provider are those of its range, .4 to .254, .2 to .254 or .1 to .255 |
| Managers.MakePool | pkg/infranetes/provider/fake/fake_pod.go:27-30 | the loop fills a deque with exactly the addresses of the range, in order |
| Managers.Manager.CreateSandbox | pkg/infranetes/internal.go:36-52 | the objects after createSandbox are the create step of the objects before; on success the id, the entry, a ready pod with the uid, labels and volumes of its request, and the boot's attaches |
| Managers.Manager.CreateThenRemove | pkg/infranetes/internal.go:112-127 | a create and the removal of its pod leave no volumes for its uid and those of other uids as they were, and put the address behind all others |
| Managers.Manager.PreCreateContainer | pkg/infranetes/provider/gcp/gcp_pod.go:233-284 | the boot step; fails exactly on a booted image pod, an image that cannot be told from its name, or a failed boot; client and providerData change only when it boots |
| Managers.Manager.StopSandbox | pkg/infranetes/internal.go:54-100 | the stop step; every container of the pod that does not fail to stop is exited, the others unchanged; so all are exited exactly when those that failed already were |
| Managers.Manager.RemovePodSandbox | pkg/infranetes/internal.go:102-130 | the remove step; on a failed Destroy nothing changes, otherwise pod, entry, address and the volumes of the pod's uid go together |
| Managers.Manager.ImportSandboxes | pkg/infranetes/internal.go:21-34 | the objects after the import are the import of the pool before, every pod with the uid and labels of an instance that answered |
| Managers.Manager.ListInstances | pkg/infranetes/provider/aws/aws_pod.go:368-412 | the loop takes exactly the answering instances' addresses out of the pool and lists their pods, or fails at the first unreachable one; it fails at once, the pool untouched, when the cloud does not list its instances |
| Managers.Manager.ListContainers | pkg/infranetes/internal.go:282-296 | the unfiltered list holds exactly the containers of all pods, and in every life of a manager each id once |
| Managers.Manager.ListPodSandbox | pkg/infranetes/internal.go:149-185 | the list holds exactly the pods that match id, stored state and every label asked for |
| Managers.PodData.Filter | pkg/infranetes/provider/common/poddata.go:168-194 | a pod is filtered out exactly when it has no client or misses the id, the stored state or a label |
| Managers.OwnedAndRouted | pkg/common/utils.go:8-15 | every container is keyed by its own id, made of its pod's id and its name, and routes back to that pod exactly when neither holds ":" |
| Managers.IdsClash | pkg/common/utils.go:8-15 | two pods can have containers of one id exactly when the id of one followed by ":" begins the other's |
| Managers.LivedIsSeparate | pkg/infranetes/provider/aws/aws_pod.go:105-109 | in every life of a manager (an import and any run of honest handlers) no pod id followed by ":" begins another: they are addresses of one base, whatever it holds, or random names |
| Managers.LivedGoesOn | pkg/infranetes/internal.go:36-130 | what a manager has lived through goes on with every handler that is honest |
| Managers.IdsUnique | pkg/vmserver/fake/fake_container.go:58-66 | containers of different pods of a manager have different ids |
| Managers.Manager.StopContainer | pkg/infranetes/manager.go:239-267 | only the named container of the pod its id names is exited; unknown or unparsable ids change nothing |
| Deques.Deque.FindAndRemove | pkg/utils/deque.go:103-113 | the walk that unlinks the element it stands on leaves a well-formed ring of exactly the other items in order, and ends |
| Deques.Deque.Append | pkg/utils/deque.go:19-24 | the item is added behind all others |
| Deques.Deque.Shift | pkg/utils/deque.go:47-59 | the first item is returned and removed, nil on an empty deque |
| Deques.Deque.Pop | pkg/utils/deque.go:33-45 | the last item is returned and removed, nil on an empty deque |
| Deques.WithoutContents | pkg/utils/deque.go:109-111 | every occurrence of the item is gone, every other item is left as often as before |
| Deques.WithoutConcat | pkg/utils/deque.go:106-112 | what precedes an item precedes it still |
| Deques.FirstInFirstOut | pkg/utils/deque.go:19-59 | what a run of appends and shifts took and what is left is what was there and what was appended, in order |
| Deques.AppendedComesInTurn | pkg/utils/deque.go:47-59 | an item appended behind n others is what exactly the (n+1)-th later shift returns |
| EbsVolumes.EbsData.Attach | pkg/infranetes/provider/aws/aws_pod.go:473-556 | the two maps and the result are the step of the maps before, for every outcome of the cloud |
| EbsDevices.AutomaticPlacement | pkg/infranetes/provider/aws/aws_pod.go:496-527 | without a device name the least letter of f..p not used is taken, with maps and result as for a named one; refused exactly when all eleven are used |
| EbsDevices.NamedPlacement | pkg/infranetes/provider/aws/aws_pod.go:487-527 | an attach at a named device changes nothing and fails when its letter is used; otherwise the letter is used, the volume is at exactly that device unless the request was rejected, and the device is returned exactly when it is confirmed |
| EbsDevices.NamedRefused | pkg/infranetes/provider/aws/aws_pod.go:487-494 | over every sequence of calls a named device is refused exactly when an earlier request had its letter |
| EbsDevices.DeviceInvariant | pkg/infranetes/provider/aws/aws_pod.go:486-527 | over every sequence of calls and outcomes attached volumes have distinct used letters, and letters used are attached volumes plus rejected requests |
| EbsDevices.AttachedAtMostOnce | pkg/infranetes/provider/aws/aws_pod.go:478-484 | the cloud accepts each volume at most once, exactly the recorded ones |
| EbsDevices.LaterAttach | pkg/infranetes/provider/aws/aws_pod.go:478-484 | after an accepted attach and any calls since, a further attach of that volume changes nothing, asks the cloud nothing, and succeeds exactly when it names the first device |
| EbsVolumes.OverTheLifeOfAVm | pkg/infranetes/provider/aws/aws_pod.go:163-176 | the same of the providerData object, over its boot loop and all later mount loops |
| EbsVolumes.EbsData.BootVolumes | pkg/infranetes/provider/aws/aws_pod.go:163-176 | the boot loop calls Attach for every volume in order, at its device; in list order exactly the volumes with a mount point whose attach returned a device are mounted, each at its mount point, with its file system and flag, on the device it is attached at |
| EbsVolumes.EbsData.MountVolumes | pkg/infranetes/internal.go:234-248 | every flex mount has a volume registered above its path attached or asked for; nothing else is asked for; every mount sent is on the device of the volume newly attached for it |
| Mounts.CoversMeansAncestor | pkg/infranetes/internal.go:273-276 | the prefix test holds exactly when the mount point, split at "/", is a component-wise prefix of the path |
| Mounts.IsFlexVolMnt | pkg/infranetes/internal.go:266-280 | in any map order a mount point is found exactly when a non-empty registered one is such a prefix, and the one found is |
| Mounts.MountRegistry.AddMount | pkg/infranetes/manager.go:546-570 | the maps stay those of the history; a call is rejected exactly on a registered mount point and then changes neither; an accepted one appends the volume and registers its non-empty mount point |
| Mounts.MountRegistry.DelMount | pkg/infranetes/manager.go:572-583 | exactly a registered mount point is deleted; volumes stay |
| Mounts.MountRegistry.RemoveVolumes | pkg/infranetes/internal.go:126-127 | a removal forgets the pod's volumes and keeps the mount points |
| Mounts.RegisteredMeaning | pkg/infranetes/manager.go:551-557 | a mount point is registered exactly when some request to add it has no later request to delete it |
| Mounts.FirstAddWins | pkg/infranetes/manager.go:552-554 | its volume is that of the first such request |
| Mounts.AcceptedMeaning | pkg/infranetes/manager.go:551-576 | an add is rejected exactly when an earlier add of its non-empty mount point has no delete since, whatever the volume; a delete exactly when there is none |
| Mounts.VolumesSinceRemoval | pkg/infranetes/manager.go:559-567 | a pod's volumes are the accepted adds since its last removal, in order |
| ContainerNames.NameRoundTrip | pkg/common/docker.go:114-152 | a made name parses back to name and attempt exactly when no embedded name holds "_", and otherwise is refused |
| ContainerNames.MadeName | pkg/common/docker.go:114-131 | a made name is "kube", the container's name, the sandbox's name, namespace and uid and the attempt in decimal, with "_" between |
| ContainerNames.ParsedNamesHaveTheForm | pkg/common/docker.go:134-152 | nothing but names of the printed form is accepted |
| Strings.ParseOfItoa | pkg/common/docker.go:78-84 | a printed number parses back exactly when it fits in 32 bits |
| Strings.ItoaDecimal | pkg/common/docker.go:114-131 | numbers are printed digit by digit in decimal |
| ContainerNames.IdRoundTrip | pkg/common/utils.go:8-15 | an id parses back to pod and container exactly when neither holds ":" |
| ContainerNames.ParsedIsId | pkg/common/utils.go:8-15 | what parses is the id of what it parses to |
| Labels.MakeLabels | pkg/common/docker.go:29-39 | in any map order the merged map is the labels with the annotations over them under prefixed keys |
| Labels.ExtractLabels | pkg/common/docker.go:197-209 | in any map order the two maps are the keys without and with the prefix |
| Labels.MergeOfExtract | pkg/common/docker.go:29-39 | taking a map apart and merging it again gives it back, for every map |
| Labels.ExtractOfMerge | pkg/common/docker.go:197-209 | merging and taking apart gives both maps back exactly when no label key has the prefix |
| DockerContainers.CreateContainer | pkg/vmserver/docker/docker_container.go:85-87 | the id returned and the labels the container is created with |
| DockerContainers.ListContainers | pkg/vmserver/docker/docker_container.go:284-317 | fails exactly on an unparsable filter id or a daemon error, and otherwise lists exactly the convertible records in order |
| DockerContainers.CreatedIsListed | pkg/common/docker.go:114-152 | a created container is listed exactly when no embedded name holds "_" |
| DockerContainers.ListedAsCreated | pkg/common/docker.go:86-106 | it is listed under the id its creation returned, with the requested name and attempt |
| DockerContainers.ListedState | pkg/common/docker.go:63-106 | the state listed is running, exited or created exactly when the status begins with "Up", "Exited" or "Created"; image and image id are the record's |
| DockerContainers.LabelsComeBack | pkg/vmserver/docker/docker_container.go:85-87 | its labels and annotations come back as requested, the two infra labels added, exactly when no label key has the prefix |
| DockerContainers.CreateThenListing | pkg/vmserver/docker/docker_container.go:292-311 | the three together, of the record the daemon holds after the create |
| DockerContainers.ListedAmong | pkg/vmserver/docker/docker_container.go:292-311 | among any other records it is listed once, in its place, and the others as without it |
| DockerContainers.ListedIdRoutes | pkg/common/utils.go:8-15 | the listed id leads back to the pod and the docker id exactly when neither holds ":" |
| FakeContainers.FakeContainerProvider.CreateContainer | pkg/vmserver/fake/fake_container.go:52-69 | the container is in the map under its id, created, and nothing else changed |
| FakeContainers.FakeContainerProvider.StopContainer | pkg/vmserver/fake/fake_container.go:84-95 | exactly the named container is exited; an unknown id changes nothing |
| FakeContainers.FakeContainerProvider.ListContainers | pkg/vmserver/fake/fake_container.go:110-128 | every container of the map once, as it is |

## Left out

- gRPC and TLS clients, the AWS, GCP and vSphere SDKs, the docker daemon, streaming, log tailing, metrics, iptables and kube-proxy: foreign calls, kept only as answers of the environment.
- Configuration files, flags, `main` functions, the flex volume executables, provider registries, image maps, annotation parsing and cgroup limits: input, output and plumbing.
- The providerData of the gcp provider (it names devices after volumes, so nothing is allocated); its pods, pool and import follow the same steps as those of aws.
- The concurrent model is that of the aws provider; the fake provider's random ids appear in the one-step model only.
- What the concurrent handlers do inside a container provider, the mount registry and the container log paths is represented by their lock operations only; the effects are proved with handlers as single steps.
- `createSandbox` and `removePodSandbox` use volumeMap, and `createContainer` reads mountMap, without mountMapLock: those races are not modelled.
- The end of an image boot writes Booted, Client and ProviderData one after the other under a read lock, which status and list handlers may hold too: the three writes are one step of the concurrent model.
- `getClient` re-enters vmMapLock and `updatePodState` writes the state of a pod, but nothing calls them; `GetMetrics` uses clients without the pod lock and without a nil check.
- A boot that fails after its VM exists is one failing answer in the concurrent model; which VMs stay alive is proved with handlers as single steps.
- Id, state and label filters of the container lists of the fake and systemd providers: the id test drops the matching container, so only the unfiltered list is modelled.
- The live probe in a pod's reported state: the filter compares the stored state, as modelled, and the item shows the probe.
- Read-only bind strings: the suffix is built and never used.
- The mounts of createContainer that are network mounts or copies: they touch no state of the model.
- Go's byte strings are sequences of characters here; separators, prefixes and digits are single ASCII characters in both.
- Managers.Manager.CreateSandbox: requires a non-empty pool, because on an empty one the source panics (cause `EmptyPool` of the concurrent model).
