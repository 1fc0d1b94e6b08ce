/** The concurrent handlers of the manager with the aws provider, at the granularity of their lock
    operations: any number of handlers run interleaved, each Lock, RLock, Unlock and each access made
    between two of them is one step. The cloud answers every request as it likes. */
module Protocol {
  import opened Wrappers
  import opened EbsDevices

  // ---------- Locks ----------

  /** The mutexes: one stateLock and one BootLock a PodData, one lock a providerData, one mapLock a
      container provider, and the manager-wide ones. */
  datatype Lock =
    | StateLock(pod: nat)
    | BootLock(pod: nat)
    | DataLock(data: nat)
    | ContLock(client: nat)
    | VmMapLock
    | DequeLock
    | MountLock

  function Rank(l: Lock): nat {
    match l
    case StateLock(_) => 0
    case BootLock(_) => 1
    case DataLock(_) => 2
    case _ => 3
  }

  /** How a thread stands to a lock. Pending is a writer that has announced itself and waits for the
      readers to leave: as in Go's RWMutex it already keeps out new readers and other writers. */
  datatype Mode = Reader | Pending | Writer

  datatype Hold = Hold(lock: Lock, mode: Mode)

  /** What a handler still has to do. A mutex is only ever locked for writing. */
  datatype Code =
    | Done
    | RLock(lock: Lock, next: Code)
    | WLock(lock: Lock, next: Code)
    | Unlock(next: Code)
    | Do(action: Action)

  /** held is a stack: the deferred unlocks of the source release in the reverse order. */
  datatype Thread = Thread(code: Code, held: seq<Hold>)

  // ---------- Shared data ----------

  datatype Pod = Pod(addr: string, ready: bool, client: Option<nat>, booted: bool, data: nat, listed: bool)

  /** providerData: instance says whether instanceId is set, maps whether the two maps were made. */
  datatype Data = Data(instance: bool, maps: bool, alloc: Allocator, volumes: seq<Volume>)

  /** Where an address of the pool is: in the deque, with the handler that shifted it and has not yet listed
      a PodData for it in vmMap, with a listed PodData, or dropped by a failed boot. */
  datatype Place = Free | Carried(thread: nat) | Held(pod: nat) | Lost

  datatype Cause = EmptyPool | NilClientInRemove | NilClientInStatus | NilMaps | NilInstance

  /** ledger, shifts, attachLog and bootLog are auxiliary: no step reads them to decide anything. */
  datatype Shared = Shared(
    imagePod: bool,
    pool: seq<string>,
    vmMap: map<string, nat>,
    pods: seq<Pod>,
    datas: seq<Data>,
    clients: nat,
    panicked: Option<Cause>,
    ledger: map<string, Place>,
    shifts: nat,
    attachLog: seq<(nat, string)>,
    bootLog: seq<nat>)

  datatype State = State(shared: Shared, threads: seq<Thread>)

  // ---------- Handlers ----------

  /** What bootSandbox runs for: RunPodSandbox of a new pod, or PreCreateContainer of an image pod. */
  datatype Job = NewPod(addr: string, volumes: seq<Volume>) | ImageBoot(pod: nat, mounts: seq<string>)

  /** Which loop an Attach returns to. */
  datatype Loop =
    | BootLoop(data: nat, client: nat, rest: seq<Volume>, job: Job)
    | MountLoop(pod: nat, client: nat, mounts: seq<string>)

  /** What a handler does with the PodData it looks up. */
  datatype Purpose =
    | ForStop
    | ForRemove
    | ForStatus
    | ForCreate(mounts: seq<string>)
    | ForCall

  /** The accesses between lock operations. */
  datatype Action =
    | Shift(volumes: seq<Volume>)
    | Launch(addr: string, volumes: seq<Volume>)
    | Provision(job: Job)
    | AttachNext(data: nat, client: nat, rest: seq<Volume>, job: Job)
    | DecideAttach(data: nat, vol: string, device: string, loop: Loop)
    | CloudAttach(data: nat, vol: string, device: string, loop: Loop)
    | Insert(pod: nat)
    | Lookup(id: string, purpose: Purpose)
    | StopBegin(pod: nat)
    | StopLoop(pod: nat, client: nat, left: nat)
    | DetachAll(pod: nat, data: nat)
    | RemoveBody(pod: nat)
    | Release(pod: nat)
    | Delete(pod: nat, size: nat, at: nat)
    | StatusBody(pod: nat)
    | CopyMap(containers: bool)
    | ListNext(refs: seq<nat>, containers: bool)
    | Visit(pod: nat, refs: seq<nat>, containers: bool)
    | PreCreate(pod: nat, mounts: seq<string>)
    | ContBegin(pod: nat, mounts: seq<string>)
    | MountNext(pod: nat, client: nat, mounts: seq<string>)
    | NeedMount(pod: nat, client: nat, data: nat, vol: string, mounts: seq<string>)
    | CallBody(pod: nat)

  /** A request that reaches the server. mounts are the volumes whose paths matched the mount map. */
  datatype Request =
    | RunPodSandbox(volumes: seq<Volume>)
    | StopPodSandbox(id: string)
    | RemovePodSandbox(id: string)
    | PodSandboxStatus(id: string)
    | ListPodSandbox
    | CreateContainer(id: string, mounts: seq<string>)
    | ContainerCall(id: string)
    | ListContainers
    | ReadLogPath(pod: nat)
    | ChangeMounts

  function Start(req: Request): Code {
    match req
    case RunPodSandbox(volumes) => WLock(DequeLock, Do(Shift(volumes)))
    case StopPodSandbox(id) => RLock(VmMapLock, Do(Lookup(id, ForStop)))
    case RemovePodSandbox(id) => RLock(VmMapLock, Do(Lookup(id, ForRemove)))
    case PodSandboxStatus(id) => RLock(VmMapLock, Do(Lookup(id, ForStatus)))
    case ListPodSandbox => RLock(VmMapLock, Do(CopyMap(false)))
    case CreateContainer(id, mounts) => RLock(VmMapLock, Do(Lookup(id, ForCreate(mounts))))
    case ContainerCall(id) => RLock(VmMapLock, Do(Lookup(id, ForCall)))
    case ListContainers => RLock(VmMapLock, Do(CopyMap(true)))
    case ReadLogPath(r) => RLock(StateLock(r), Unlock(Done))
    case ChangeMounts => WLock(MountLock, Unlock(Done))
  }

  /** What follows a successful lookup. */
  function Enter(purpose: Purpose, r: nat): Code {
    match purpose
    case ForStop => WLock(StateLock(r), Do(StopBegin(r)))
    case ForRemove => WLock(StateLock(r), Do(RemoveBody(r)))
    case ForStatus => RLock(StateLock(r), Do(StatusBody(r)))
    case ForCreate(mounts) => RLock(StateLock(r), WLock(BootLock(r), Do(PreCreate(r, mounts))))
    case ForCall => RLock(StateLock(r), Do(CallBody(r)))
  }

  /** AddContLogPath, with which every CreateContainer ends. */
  function LogPath(r: nat): Code { WLock(StateLock(r), Unlock(Done)) }

  function Resume(loop: Loop): Code {
    match loop
    case BootLoop(d, c, rest, job) => Do(AttachNext(d, c, rest, job))
    case MountLoop(r, c, mounts) => Do(MountNext(r, c, mounts))
  }

  // ---------- The locks each access is made under ----------

  function JobHeld(job: Job): seq<Hold> {
    match job
    case NewPod(_, _) => []
    case ImageBoot(r, _) => [Hold(StateLock(r), Reader), Hold(BootLock(r), Writer)]
  }

  function LoopHeld(loop: Loop): seq<Hold> {
    match loop
    case BootLoop(_, _, _, job) => JobHeld(job)
    case MountLoop(r, _, _) => [Hold(StateLock(r), Reader)]
  }

  function HeldAt(a: Action): seq<Hold> {
    match a
    case Shift(_) => [Hold(DequeLock, Writer)]
    case Launch(_, _) => []
    case Provision(job) => JobHeld(job)
    case AttachNext(_, _, _, job) => JobHeld(job)
    case DecideAttach(d, _, _, loop) => LoopHeld(loop) + [Hold(DataLock(d), Writer)]
    case CloudAttach(d, _, _, loop) => LoopHeld(loop) + [Hold(DataLock(d), Writer)]
    case Insert(_) => [Hold(VmMapLock, Writer)]
    case Lookup(_, _) => [Hold(VmMapLock, Reader)]
    case StopBegin(r) => [Hold(StateLock(r), Writer)]
    case StopLoop(r, _, _) => [Hold(StateLock(r), Writer)]
    case DetachAll(r, d) => [Hold(StateLock(r), Writer), Hold(DataLock(d), Writer)]
    case RemoveBody(r) => [Hold(StateLock(r), Writer)]
    case Release(r) => [Hold(StateLock(r), Writer), Hold(DequeLock, Writer)]
    case Delete(r, _, _) => [Hold(StateLock(r), Writer), Hold(VmMapLock, Writer)]
    case StatusBody(r) => [Hold(StateLock(r), Reader)]
    case CopyMap(_) => [Hold(VmMapLock, Reader)]
    case ListNext(_, _) => []
    case Visit(r, _, _) => [Hold(StateLock(r), Reader)]
    case PreCreate(r, _) => [Hold(StateLock(r), Reader), Hold(BootLock(r), Writer)]
    case ContBegin(r, _) => [Hold(StateLock(r), Reader)]
    case MountNext(r, _, _) => [Hold(StateLock(r), Reader)]
    case NeedMount(r, _, d, _, _) => [Hold(StateLock(r), Reader), Hold(DataLock(d), Writer)]
    case CallBody(r) => [Hold(StateLock(r), Reader)]
  }

  // ---------- What each access does ----------

  /** What the environment decides: whether a foreign call succeeds (for the lookup of CreateContainer: whether the
      image name can be translated afterwards), how many containers a pod lists, and in which order a map is walked. */
  datatype Oracle = Oracle(ok: bool, count: nat, order: seq<nat>)

  /** The objects an action refers to exist. */
  ghost predicate Refs(sh: Shared, a: Action) {
    match a
    case Provision(ImageBoot(r, _)) => r < |sh.pods|
    case AttachNext(d, c, _, job) => d < |sh.datas| && (job.ImageBoot? ==> job.pod < |sh.pods|)
    case DecideAttach(d, _, _, loop) => d < |sh.datas| && LoopRefs(sh, d, loop)
    case CloudAttach(d, _, device, loop) => d < |sh.datas| && device != "" && LoopRefs(sh, d, loop)
    case Insert(r) => r < |sh.pods|
    case StopBegin(r) => r < |sh.pods|
    case StopLoop(r, _, _) => r < |sh.pods|
    case DetachAll(r, d) => r < |sh.pods| && d < |sh.datas|
    case RemoveBody(r) => r < |sh.pods|
    case Release(r) => r < |sh.pods|
    case Delete(r, _, _) => r < |sh.pods|
    case StatusBody(r) => r < |sh.pods|
    case ListNext(refs, _) => forall r | r in refs :: r < |sh.pods|
    case Visit(r, refs, _) => r < |sh.pods| && forall q | q in refs :: q < |sh.pods|
    case PreCreate(r, _) => r < |sh.pods|
    case ContBegin(r, _) => r < |sh.pods|
    case MountNext(r, _, _) => r < |sh.pods|
    case NeedMount(r, _, d, _, _) => r < |sh.pods| && d < |sh.datas|
    case CallBody(r) => r < |sh.pods|
    case _ => true
  }

  ghost predicate LoopRefs(sh: Shared, d: nat, loop: Loop) {
    match loop
    case BootLoop(e, _, _, job) => e == d && (job.ImageBoot? ==> job.pod < |sh.pods|)
    case MountLoop(r, _, _) => r < |sh.pods|
  }

  /** Objects refer to objects that exist. */
  ghost predicate WellFormed(sh: Shared) {
    && (forall r | 0 <= r < |sh.pods| :: sh.pods[r].data < |sh.datas|)
    && (forall id | id in sh.vmMap :: sh.vmMap[id] < |sh.pods|)
  }

  function Panic(sh: Shared, cause: Cause): (Shared, Code) {
    (sh.(panicked := Some(cause)), Done)
  }

  function WithPod(sh: Shared, r: nat, p: Pod): Shared
    requires r < |sh.pods|
  {
    sh.(pods := sh.pods[r := p])
  }

  function WithData(sh: Shared, d: nat, x: Data): Shared
    requires d < |sh.datas|
  {
    sh.(datas := sh.datas[d := x])
  }

  /** A new PodData for addr over providerData d. */
  function AllocPod(sh: Shared, addr: string, client: nat, booted: bool, d: nat): Shared {
    sh.(pods := sh.pods + [Pod(addr, true, Some(client), booted, d, false)])
  }

  /** The end of bootSandbox once every volume is tried. */
  function FinishBoot(sh: Shared, d: nat, c: nat, job: Job): (Shared, Code)
    requires job.ImageBoot? ==> job.pod < |sh.pods|
  {
    match job
    case NewPod(addr, _) =>
      (AllocPod(sh, addr, c, true, d), WLock(VmMapLock, Do(Insert(|sh.pods|))))
    case ImageBoot(r, mounts) =>
      (WithPod(sh, r, sh.pods[r].(booted := true, client := Some(c), data := d)).(bootLog := sh.bootLog + [r]),
       Unlock(Unlock(RLock(StateLock(r), Do(ContBegin(r, mounts))))))
  }

  /** Accesses of createSandbox and RunPodSandbox. */
  predicate IsRun(a: Action) { a.Shift? || a.Launch? || a.Insert? }

  function RunStep(sh: Shared, t: nat, a: Action): (Shared, Code)
    requires IsRun(a) && Refs(sh, a)
  {
    match a
    case Shift(volumes) =>
      if sh.pool == [] then Panic(sh, EmptyPool)
      else
        (sh.(pool := sh.pool[1..], ledger := sh.ledger[sh.pool[0] := Carried(t)], shifts := sh.shifts + 1),
         Unlock(Do(Launch(sh.pool[0], volumes))))
    case Launch(addr, volumes) =>
      if sh.imagePod then
        (AllocPod(sh.(datas := sh.datas + [Data(false, false, EMPTY, volumes)], clients := sh.clients + 1),
                  addr, sh.clients, false, |sh.datas|),
         WLock(VmMapLock, Do(Insert(|sh.pods|))))
      else (sh, Do(Provision(NewPod(addr, volumes))))
    case Insert(r) =>
      (WithPod(sh, r, sh.pods[r].(listed := true)).(vmMap := sh.vmMap[sh.pods[r].addr := r],
                                                    ledger := sh.ledger[sh.pods[r].addr := Held(r)]),
       Unlock(Done))
  }

  /** Accesses of bootSandbox. */
  predicate IsBoot(a: Action) { a.Provision? || a.AttachNext? }

  function BootStep(sh: Shared, a: Action, o: Oracle): (Shared, Code)
    requires IsBoot(a) && WellFormed(sh) && Refs(sh, a)
  {
    match a
    case Provision(job) =>
      if !o.ok then
        match job
        case NewPod(addr, _) => (sh.(ledger := sh.ledger[addr := Lost]), Done)
        case ImageBoot(r, _) => (sh, Unlock(Unlock(LogPath(r))))
      else
        var volumes := if job.NewPod? then job.volumes else sh.datas[sh.pods[job.pod].data].volumes;
        (sh.(datas := sh.datas + [Data(true, true, EMPTY, volumes)], clients := sh.clients + 1),
         Do(AttachNext(|sh.datas|, sh.clients, volumes, job)))
    case AttachNext(d, c, rest, job) =>
      if rest == [] then FinishBoot(sh, d, c, job)
      else
        (sh, WLock(DataLock(d),
                   Do(DecideAttach(d, rest[0].volume, rest[0].device, BootLoop(d, c, rest[1..], job)))))
  }

  /** Accesses of Attach. */
  predicate IsAttach(a: Action) { a.DecideAttach? || a.CloudAttach? }

  function AttachStep(sh: Shared, a: Action, o: Oracle): (Shared, Code)
    requires IsAttach(a) && Refs(sh, a)
  {
    match a
    case DecideAttach(d, vol, device, loop) =>
      var x := sh.datas[d];
      TryHasLetter(x.alloc, vol, device);
      if !x.maps then Panic(sh, NilMaps)
      else
        (match Decide(x.alloc, vol, device)
         case Try(dev) =>
           (WithData(sh, d, x.(alloc := Reserve(x.alloc, dev))), Do(CloudAttach(d, vol, dev, loop)))
         case _ => (sh, Unlock(Resume(loop))))
    case CloudAttach(d, vol, device, loop) =>
      var x := sh.datas[d];
      if o.ok then
        (WithData(sh, d, x.(alloc := Record(x.alloc, vol, device))).(attachLog := sh.attachLog + [(d, vol)]),
         Unlock(Resume(loop)))
      else (sh, Unlock(Resume(loop)))
  }

  /** Accesses of stopSandbox. */
  predicate IsStop(a: Action) { a.StopBegin? || a.StopLoop? || a.DetachAll? }

  function StopStep(sh: Shared, a: Action, o: Oracle): (Shared, Code)
    requires IsStop(a) && WellFormed(sh) && Refs(sh, a)
  {
    match a
    case StopBegin(r) =>
      (match sh.pods[r].client
       case None => (sh, Unlock(Done))
       case Some(c) =>
         (sh, WLock(ContLock(c), Unlock(if o.ok then Do(StopLoop(r, c, o.count)) else Unlock(Done)))))
    case StopLoop(r, c, left) =>
      if left > 0 then (sh, WLock(ContLock(c), Unlock(Do(StopLoop(r, c, left - 1)))))
      else
        (WithPod(sh, r, sh.pods[r].(ready := false)),
         WLock(DataLock(sh.pods[r].data), Do(DetachAll(r, sh.pods[r].data))))
    case DetachAll(r, d) =>
      if sh.datas[d].volumes != [] && !o.ok && !sh.datas[d].instance then Panic(sh, NilInstance)
      else (WithData(sh, d, sh.datas[d].(volumes := [])), Unlock(Unlock(Done)))
  }

  /** Accesses of removePodSandbox. */
  predicate IsRemove(a: Action) { a.RemoveBody? || a.Release? || a.Delete? }

  function RemoveStep(sh: Shared, a: Action, o: Oracle): (Shared, Code)
    requires IsRemove(a) && Refs(sh, a)
  {
    match a
    case RemoveBody(r) =>
      if sh.pods[r].booted && !o.ok then (sh, Unlock(Done))
      else if sh.pods[r].client.None? then Panic(sh, NilClientInRemove)
      else (WithPod(sh, r, sh.pods[r].(client := None)), WLock(DequeLock, Do(Release(r))))
    case Release(r) =>
      (sh.(pool := sh.pool + [sh.pods[r].addr], ledger := sh.ledger[sh.pods[r].addr := Free]),
       Unlock(WLock(VmMapLock, Do(Delete(r, |sh.pool|, sh.shifts)))))
    case Delete(r, _, _) =>
      (sh.(vmMap := sh.vmMap - {sh.pods[r].addr}), Unlock(Unlock(Done)))
  }

  /** Accesses that only read: lookups, podSandboxStatus, the list calls, createContainer around its attaches,
      and the calls on one container. */
  function ReadStep(sh: Shared, a: Action, o: Oracle): (Shared, Code)
    requires !IsRun(a) && !IsBoot(a) && !IsAttach(a) && !IsStop(a) && !IsRemove(a)
    requires WellFormed(sh) && Refs(sh, a)
  {
    match a
    case Lookup(id, purpose) =>
      (sh, Unlock(if id in sh.vmMap && (purpose.ForCreate? ==> o.ok) then Enter(purpose, sh.vmMap[id]) else Done))
    case StatusBody(r) =>
      if sh.pods[r].ready && sh.pods[r].booted && sh.pods[r].client.None? then Panic(sh, NilClientInStatus)
      else (sh, Unlock(Done))
    case CopyMap(containers) => (sh, Unlock(Do(ListNext(o.order, containers))))
    case ListNext(refs, containers) =>
      if refs == [] then (sh, Done)
      else (sh, RLock(StateLock(refs[0]), Do(Visit(refs[0], refs[1..], containers))))
    case Visit(r, refs, containers) =>
      (match sh.pods[r].client
       case Some(c) =>
         (sh, if containers then WLock(ContLock(c), Unlock(Unlock(Do(ListNext(refs, containers)))))
              else Unlock(Do(ListNext(refs, containers))))
       case None => (sh, Unlock(Do(ListNext(refs, containers)))))
    case PreCreate(r, mounts) =>
      if !sh.imagePod then (sh, Unlock(Unlock(RLock(StateLock(r), Do(ContBegin(r, mounts))))))
      else if sh.pods[r].booted then (sh, Unlock(Unlock(LogPath(r))))
      else (sh, Do(Provision(ImageBoot(r, mounts))))
    case ContBegin(r, mounts) =>
      (match sh.pods[r].client
       case None => (sh, Unlock(LogPath(r)))
       case Some(c) => (sh, Do(MountNext(r, c, mounts))))
    case MountNext(r, c, mounts) =>
      if mounts == [] then (sh, WLock(ContLock(c), Unlock(Unlock(LogPath(r)))))
      else
        var d := sh.pods[r].data;
        (sh, WLock(DataLock(d), Do(NeedMount(r, c, d, mounts[0], mounts[1..]))))
    case NeedMount(r, c, d, vol, mounts) =>
      if vol in sh.datas[d].alloc.attached then (sh, Unlock(Do(MountNext(r, c, mounts))))
      else (sh, Unlock(WLock(DataLock(d), Do(DecideAttach(d, vol, "", MountLoop(r, c, mounts))))))
    case CallBody(r) =>
      (match sh.pods[r].client
       case None => (sh, Unlock(Done))
       case Some(c) => (sh, WLock(ContLock(c), Unlock(Unlock(Done)))))
  }

  /** The access a of thread t: the new shared data and what the handler does next. */
  function Exec(sh: Shared, t: nat, a: Action, o: Oracle): (Shared, Code)
    requires WellFormed(sh) && Refs(sh, a)
  {
    if IsRun(a) then RunStep(sh, t, a)
    else if IsBoot(a) then BootStep(sh, a, o)
    else if IsAttach(a) then AttachStep(sh, a, o)
    else if IsStop(a) then StopStep(sh, a, o)
    else if IsRemove(a) then RemoveStep(sh, a, o)
    else ReadStep(sh, a, o)
  }

  // ---------- Steps ----------

  datatype Choice = Spawn(request: Request) | Run(thread: nat, oracle: Oracle)

  /** Thread t keeps out new readers and writers of l. */
  ghost predicate Slot(s: State, t: nat, l: Lock) {
    t < |s.threads| && (Hold(l, Pending) in s.threads[t].held || Hold(l, Writer) in s.threads[t].held)
  }

  ghost predicate Reads(s: State, t: nat, l: Lock) {
    t < |s.threads| && Hold(l, Reader) in s.threads[t].held
  }

  predicate IsPending(th: Thread) {
    th.held != [] && th.held[|th.held| - 1].mode.Pending?
  }

  /** u keeps t from its next step. */
  ghost predicate Blocks(s: State, u: nat, t: nat)
    requires t < |s.threads|
  {
    match s.threads[t].code
    case RLock(l, _) => Slot(s, u, l)
    case WLock(l, _) => if IsPending(s.threads[t]) then Reads(s, u, l) else Slot(s, u, l)
    case _ => false
  }

  /** The walk of a map visits the values of that map. */
  ghost predicate Fits(sh: Shared, a: Action, o: Oracle) {
    a.CopyMap? ==> |o.order| == |sh.vmMap| && forall r :: r in o.order <==> r in sh.vmMap.Values
  }

  ghost predicate Enabled(s: State, ch: Choice) {
    && s.shared.panicked.None?
    && WellFormed(s.shared)
    && match ch
       case Spawn(req) => req.ReadLogPath? ==> req.pod < |s.shared.pods|
       case Run(t, o) =>
         && t < |s.threads|
         && match s.threads[t].code
            case Done => false
            case Do(a) => Refs(s.shared, a) && Fits(s.shared, a, o)
            case Unlock(_) => s.threads[t].held != []
            case _ => forall u :: !Blocks(s, u, t)
  }

  /** The lock step of one thread. */
  function LockStep(th: Thread): Thread
    requires th.code.Unlock? ==> th.held != []
    requires IsPending(th) ==> th.held != []
    requires !th.code.Done? && !th.code.Do?
  {
    match th.code
    case RLock(l, next) => Thread(next, th.held + [Hold(l, Reader)])
    case WLock(l, next) =>
      if IsPending(th) then Thread(next, th.held[..|th.held| - 1] + [Hold(l, Writer)])
      else Thread(th.code, th.held + [Hold(l, Pending)])
    case Unlock(next) => Thread(next, th.held[..|th.held| - 1])
  }

  ghost function Next(s: State, ch: Choice): State
    requires Enabled(s, ch)
  {
    match ch
    case Spawn(req) => s.(threads := s.threads + [Thread(Start(req), [])])
    case Run(t, o) =>
      var th := s.threads[t];
      if th.code.Do? then
        var (sh, code) := Exec(s.shared, t, th.code.action, o);
        State(sh, s.threads[t := Thread(code, th.held)])
      else s.(threads := s.threads[t := LockStep(th)])
  }

  /** The server after importSandboxes: no handler runs, and every imported pod is booted, ready and listed
      under the address it holds. Its providerData has no maps and no instance id. */
  ghost predicate Init(s: State) {
    var sh := s.shared;
    && s.threads == []
    && sh.panicked.None?
    && NoDup(sh.pool)
    && (forall a :: a in sh.pool <==> a in sh.ledger && sh.ledger[a].Free?)
    && (forall a | a in sh.ledger :: sh.ledger[a].Free? || sh.ledger[a].Held?)
    && (forall a | a in sh.ledger && sh.ledger[a].Held? ::
          sh.ledger[a].pod < |sh.pods| && sh.pods[sh.ledger[a].pod].addr == a)
    && |sh.datas| == |sh.pods| == sh.clients
    && (forall r | 0 <= r < |sh.pods| ::
          && sh.pods[r] == Pod(sh.pods[r].addr, true, Some(r), true, r, true)
          && sh.pods[r].addr in sh.ledger && sh.ledger[sh.pods[r].addr] == Held(r)
          && sh.pods[r].addr in sh.vmMap && sh.vmMap[sh.pods[r].addr] == r)
    && (forall d | 0 <= d < |sh.datas| :: sh.datas[d] == Data(false, false, EMPTY, []))
    && (forall id | id in sh.vmMap :: sh.vmMap[id] < |sh.pods| && sh.pods[sh.vmMap[id]].addr == id)
    && sh.shifts == 0 && sh.attachLog == [] && sh.bootLog == []
  }
}
