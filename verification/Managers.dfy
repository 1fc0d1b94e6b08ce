/** The manager's sandbox handlers as single steps on its objects: vmMap and the PodData in it, the deque of free
    addresses, the mount registry, and the container providers behind the pods' clients. */
module Managers {
  import opened Wrappers
  import opened Strings
  import opened ContainerNames
  import opened Deques
  import opened EbsDevices
  import opened EbsVolumes
  import opened Mounts
  import opened FakeContainers
  import S = Sandboxes

  // ---------- The pool ----------

  function Address(base: string, i: nat): string { base + "." + Itoa(i) }

  /** The addresses base.lo .. base.(hi - 1) in order. */
  function PoolOf(base: string, lo: nat, hi: nat): seq<string>
    requires lo <= hi
  {
    seq(hi - lo, i requires 0 <= i < hi - lo => Address(base, lo + i))
  }

  /** The cloud a provider talks to. */
  datatype Site = Aws | Gcp | NoCloud

  /** The pool a new provider starts with: .4 to .254 on aws, .2 to .254 on gcp, .1 to .255 for the fake provider. */
  function NewPool(site: Site, base: string): seq<string> {
    match site
    case Aws => PoolOf(base, 4, 255)
    case Gcp => PoolOf(base, 2, 255)
    case NoCloud => PoolOf(base, 1, 256)
  }

  lemma AddressInjective(base: string, m: nat, n: nat)
    requires m != n
    ensures Address(base, m) != Address(base, n)
  {
    assert Address(base, m)[|base| + 1..] == Itoa(m) && Address(base, n)[|base| + 1..] == Itoa(n);
    if Itoa(m) == Itoa(n) { ItoaInjective(m, n); }
  }

  /** The pool of a new provider holds no address twice: decimal numbers print differently. */
  lemma PoolNoDup(base: string, lo: nat, hi: nat)
    requires lo <= hi
    ensures NoDup(PoolOf(base, lo, hi))
  {
    var pool := PoolOf(base, lo, hi);
    forall i, j | 0 <= i < j < |pool| ensures pool[i] != pool[j] {
      AddressInjective(base, lo + i, lo + j);
    }
  }

  /** The addresses of a new provider, spelled out. */
  lemma PoolRange(site: Site, base: string, i: nat)
    requires i < |NewPool(site, base)|
    ensures |NewPool(site, base)| == match site case Aws => 251 case Gcp => 253 case NoCloud => 255
    ensures var first := match site case Aws => 4 case Gcp => 2 case NoCloud => 1;
            NewPool(site, base)[i] == base + "." + Itoa(first + i)
  {
    match site
    case Aws => assert NewPool(site, base)[i] == Address(base, 4 + i);
    case Gcp => assert NewPool(site, base)[i] == Address(base, 2 + i);
    case NoCloud => assert NewPool(site, base)[i] == Address(base, 1 + i);
  }

  /** The whole life of a manager: whatever its instances answered to the import and whatever honest handlers ran
      since, every address of its provider's pool is free once, held by one pod, or lost. */
  lemma LifeConserves(site: Site, base: string, provider: S.Provider, listed: bool, instances: seq<S.Instance>,
                      es: seq<S.Event>)
    requires S.FromPool(NewPool(site, base), instances)
    requires S.HonestRun(S.Import(provider, NewPool(site, base), listed, instances), es)
    ensures var w := S.Import(provider, NewPool(site, base), listed, instances);
            S.Conserved(S.Run(w, es), S.Members(NewPool(site, base)))
  {
    PoolNoDup(base, 4, 255);
    PoolNoDup(base, 2, 255);
    PoolNoDup(base, 1, 256);
    S.ImportConserves(provider, NewPool(site, base), listed, instances);
    S.RunConserves(S.Import(provider, NewPool(site, base), listed, instances), S.Members(NewPool(site, base)), es);
  }

  method MakePool(base: string, lo: nat, hi: nat) returns (ipList: Deque<string>)
    requires lo <= hi
    ensures ipList.Valid() && fresh(ipList) && fresh(ipList.Repr)
    ensures ipList.items == PoolOf(base, lo, hi) && NoDup(ipList.items)
  {
    ipList := new Deque<string>();
    for i := lo to hi
      invariant ipList.Valid() && fresh(ipList) && fresh(ipList.Repr)
      invariant ipList.items == PoolOf(base, lo, i)
    {
      ipList.Append(Address(base, i));
    }
    PoolNoDup(base, lo, hi);
  }

  // ---------- PodData ----------

  class PodData {
    const id: string
    const ip: string
    const uid: string
    const labels: map<string, string>
    var client: FakeContainerProvider?
    var ready: bool
    var booted: bool
    var data: EbsData?
    var volumes: seq<Volume>

    constructor (id: string, ip: string, uid: string, labels: map<string, string>, client: FakeContainerProvider,
                 booted: bool, data: EbsData?, volumes: seq<Volume>)
      ensures this.id == id && this.client == client && View() == S.Pod(ip, uid, true, booted)
      ensures this.labels == labels && this.data == data && this.volumes == volumes
    {
      this.id, this.ip, this.uid, this.labels := id, ip, uid, labels;
      this.client, this.booted, this.data, this.volumes := client, booted, data, volumes;
      ready := true;
    }

    ghost function View(): S.Pod
      reads this
    {
      S.Pod(ip, uid, ready, booted)
    }

    method StopPod()
      modifies `ready
      ensures View() == old(View()).(ready := false)
    {
      ready := false;
    }

    /** With the provider's StopPodSandbox, which forgets the volumes it detached. */
    method StopAndDetach()
      modifies `ready, `volumes
      ensures View() == old(View()).(ready := false) && volumes == []
    {
      StopPod();
      volumes := [];
    }

    method RemovePod()
      requires client != null
      modifies this
      ensures View() == old(View()) && client == null
    {
      client := null;
    }

    /** What PreCreateContainer takes over from the booted VM. */
    method BootWith(client: FakeContainerProvider, data: EbsData)
      modifies this
      ensures View() == old(View()).(booted := true) && this.client == client && this.data == data
              && volumes == old(volumes)
    {
      booted := true;
      this.client := client;
      this.data := data;
    }

    /** Once not ready, always not ready; otherwise a booted VM is asked. */
    function GetPodState(answers: bool): (up: bool)
      requires ready && booted ==> client != null
      reads this
      ensures up == S.PodState(ready, booted, answers)
      ensures up <==> ready && (!booted || answers)
    {
      if !ready then false else if !booted then true else answers
    }

    /** A pod passes the filter when it still has a client and matches the id, the stored state and every label
        asked for; "" and None ask for nothing. */
    method Filter(filterId: string, state: Option<bool>, selector: map<string, string>) returns (out: bool)
      ensures out <==> client == null || (filterId != "" && filterId != id) || (state.Some? && state.value != ready)
                       || exists k :: k in selector && !(k in labels && labels[k] == selector[k])
    {
      if client == null { return true; }
      if filterId != "" && filterId != id { return true; }
      if state.Some? && state.value != ready { return true; }
      var left := selector.Keys;
      while left != {}
        invariant left <= selector.Keys
        invariant forall k | k in selector && k !in left :: k in labels && labels[k] == selector[k]
        decreases left
      {
        var k :| k in left;
        if k !in labels || labels[k] != selector[k] { return true; }
        left := left - {k};
      }
      return false;
    }
  }

  /** The client and the providerData of a VM that bootSandbox has brought up. */
  method BootVm(id: string, volumes: seq<Volume>, cloud: seq<Outcome>)
    returns (client: FakeContainerProvider, data: EbsData)
    requires |cloud| == |volumes|
    ensures fresh(client) && client.contMap == map[] && client.owner == id
    ensures fresh(data) && data.Valid() && data.calls == BootCalls(volumes, cloud)
  {
    client := new FakeContainerProvider(id);
    data := new EbsData();
    var _ := data.BootVolumes(volumes, cloud);
  }

  /** A PodData with a client of its own that knows of no container yet. */
  ghost predicate IsNew(pod: PodData)
    reads pod, if pod.client != null then {pod.client} else {}
  {
    pod.client != null && pod.client.contMap == map[] && pod.client.owner == pod.id
  }

  /** A PodData over a fake client, which stands in for the VM. */
  method UnbootedPod(id: string, ip: string, uid: string, labels: map<string, string>, booted: bool,
                     volumes: seq<Volume>)
    returns (pod: PodData)
    ensures IsNew(pod) && fresh(pod) && fresh(pod.client) && pod.id == id && pod.View() == S.Pod(ip, uid, true, booted)
    ensures pod.labels == labels && pod.volumes == volumes
  {
    var client := new FakeContainerProvider(id);
    pod := new PodData(id, ip, uid, labels, client, booted, null, volumes);
  }

  /** A PodData over a VM brought up for it. */
  method BootedPod(id: string, ip: string, uid: string, labels: map<string, string>, volumes: seq<Volume>,
                   cloud: seq<Outcome>) returns (pod: PodData)
    requires |cloud| == |volumes|
    ensures IsNew(pod) && fresh(pod) && fresh(pod.client) && pod.id == id && pod.View() == S.Pod(ip, uid, true, true)
    ensures pod.labels == labels && pod.volumes == volumes
    ensures pod.data != null && fresh(pod.data) && pod.data.Valid() && pod.data.calls == BootCalls(volumes, cloud)
  {
    var client, data := BootVm(id, volumes, cloud);
    pod := new PodData(id, ip, uid, labels, client, true, data, volumes);
  }

  // ---------- The manager ----------

  class Manager {
    const provider: S.Provider
    const ipList: Deque<string>
    const mounts: MountRegistry
    var vmMap: map<string, PodData>
    ghost var lost: set<string>
    ghost var live: set<string>
    ghost var clients: set<FakeContainerProvider>  // at least the clients of the listed pods

    /** Pod is known by the id, with a client of its own that holds only its containers. */
    ghost predicate PodOk(id: string, pod: PodData)
      reads `clients, pod, clients
    {
      && pod.id == id && pod.client != null && pod.client in clients
      && pod.client.owner == id && pod.client.OwnedBy(id)
    }

    /** vmMap lists every pod under its own id. */
    ghost predicate PodsOk()
      reads `vmMap, `clients, vmMap.Values, clients
    {
      forall id | id in vmMap :: PodOk(id, vmMap[id])
    }

    ghost predicate Valid()
      reads this, ipList, ipList.Repr, mounts, vmMap.Values, clients
    {
      ipList.Valid() && mounts.Valid() && PodsOk()
    }

    ghost function Views(): map<string, S.Pod>
      reads `vmMap, vmMap.Values
    {
      map id | id in vmMap :: vmMap[id].View()
    }

    ghost function World(): S.World
      reads this, ipList, vmMap.Values
    {
      S.World(provider, ipList.items, Views(), lost, live)
    }

    /** A new manager over a full pool that has imported nothing yet. */
    constructor (provider: S.Provider, ipList: Deque<string>, ghost live: set<string>)
      requires ipList.Valid()
      ensures Valid() && fresh(mounts) && this.ipList == ipList
      ensures World() == S.World(provider, ipList.items, map[], {}, live)
    {
      this.provider, this.ipList := provider, ipList;
      mounts := new MountRegistry();
      vmMap, lost, this.live, clients := map[], {}, live, {};
    }

    /** ipList.Shift() as the manager sees it. */
    method TakeAddress() returns (podIp: string)
      requires Valid() && ipList.items != []
      modifies ipList, ipList.Repr
      ensures Valid() && ipList.Repr == old(ipList.Repr)
      ensures podIp == old(ipList.items)[0] && World() == old(World()).(pool := old(ipList.items)[1..])
    {
      var addr := ipList.Shift();
      podIp := addr.value;
    }

    /** The PodData RunPodSandbox makes for an address, unless its boot fails. cloud is how the attaches of a boot
        at once come out. */
    method LaunchPod(podIp: string, uid: string, labels: map<string, string>, fate: S.Fate, volumes: seq<Volume>,
                     cloud: seq<Outcome>, randomId: string) returns (pod: PodData?)
      requires Valid() && |cloud| == |volumes|
      ensures Valid() && World() == old(World())
      ensures pod == null <==> provider == S.Cloud(false) && !fate.Up?
      ensures pod != null ==>
                IsNew(pod) && fresh(pod) && fresh(pod.client) && pod.View() == LaunchView(podIp, uid, fate)
      ensures pod != null ==> IsFor(pod, uid, labels, volumes)
      ensures pod != null ==> pod.id == if provider.Fake? then randomId else podIp
      ensures pod != null && provider == S.Cloud(false) ==>
                pod.data != null && fresh(pod.data) && pod.data.Valid() && pod.data.calls == BootCalls(volumes, cloud)
    {
      if provider == S.Cloud(false) {
        if !fate.Up? { return null; }
        pod := BootedPod(podIp, fate.ip, uid, labels, volumes, cloud);
      } else if provider.Fake? {
        pod := UnbootedPod(randomId, podIp, uid, labels, true, []);
      } else {
        pod := UnbootedPod(podIp, podIp, uid, labels, false, volumes);
      }
    }

    /** What a new PodData takes over from its request: it is ready, with its uid and labels, and with the volumes
        added for it, of which the fake provider knows nothing. */
    ghost predicate IsFor(pod: PodData, uid: string, labels: map<string, string>, volumes: seq<Volume>)
      reads pod
    {
      pod.ready && pod.uid == uid && pod.labels == labels && pod.volumes == if provider.Fake? then [] else volumes
    }

    /** The PodData by value. */
    function LaunchView(podIp: string, uid: string, fate: S.Fate): S.Pod
      requires provider == S.Cloud(false) ==> fate.Up?
    {
      match provider
      case Fake => S.Pod(podIp, uid, true, true)
      case Cloud(true) => S.Pod(podIp, uid, true, false)
      case Cloud(false) => S.Pod(fate.ip, uid, true, true)
    }

    /** The create step in its parts. */
    lemma CreateParts(w: S.World, uid: string, fate: S.Fate, randomId: string)
      requires w.provider == provider && w.pool != []
      ensures var podIp, fails := w.pool[0], provider == S.Cloud(false) && !fate.Up?;
              S.CreateStep(w, uid, fate, randomId) ==
              S.World(provider, w.pool[1..],
                      if fails then w.pods
                      else w.pods[(if provider.Fake? then randomId else podIp) := LaunchView(podIp, uid, fate)],
                      w.lost + Dropped(podIp, fate), w.live + Started(podIp, fate))
    {
    }

    /** RunPodSandbox of the provider. */
    method RunPodSandbox(uid: string, labels: map<string, string>, fate: S.Fate, volumes: seq<Volume>,
                         cloud: seq<Outcome>, randomId: string)
      returns (pod: PodData?)
      requires Valid() && ipList.items != [] && |cloud| == |volumes|
      modifies `lost, `live, ipList, ipList.Repr
      ensures Valid() && ipList.Repr == old(ipList.Repr)
      ensures pod == null <==> provider == S.Cloud(false) && !fate.Up?
      ensures pod != null ==> IsNew(pod) && fresh(pod) && fresh(pod.client)
      ensures pod != null ==> pod.id == if provider.Fake? then randomId else old(ipList.items)[0]
      ensures pod != null ==> IsFor(pod, uid, labels, volumes)
      ensures S.CreateStep(old(World()), uid, fate, randomId)
              == if pod == null then World() else World().(pods := World().pods[pod.id := pod.View()])
      ensures pod != null && provider == S.Cloud(false) ==>
                pod.data != null && fresh(pod.data) && pod.data.Valid() && pod.data.calls == BootCalls(volumes, cloud)
    {
      CreateParts(World(), uid, fate, randomId);
      var podIp := TakeAccounted(fate);
      pod := LaunchPod(podIp, uid, labels, fate, volumes, cloud, randomId);
    }

    method TakeAccounted(ghost fate: S.Fate) returns (podIp: string)
      requires Valid() && ipList.items != []
      modifies `lost, `live, ipList, ipList.Repr
      ensures Valid() && ipList.Repr == old(ipList.Repr) && podIp == old(ipList.items)[0]
      ensures World() == S.World(provider, old(ipList.items)[1..], old(Views()),
                                 old(lost) + Dropped(podIp, fate), old(live) + Started(podIp, fate))
    {
      podIp := TakeAddress();
      Account(podIp, fate);
    }

    /** The books on lost addresses and live VMs, which the program itself does not keep. */
    ghost method Account(podIp: string, fate: S.Fate)
      requires Valid()
      modifies `lost, `live
      ensures Valid()
      ensures lost == old(lost) + Dropped(podIp, fate) && live == old(live) + Started(podIp, fate)
      ensures World() == old(World()).(lost := lost, live := live)
    {
      lost, live := lost + Dropped(podIp, fate), live + Started(podIp, fate);
    }

    function Dropped(podIp: string, fate: S.Fate): set<string> {
      if provider == S.Cloud(false) && !fate.Up? then {podIp} else {}
    }

    function Started(podIp: string, fate: S.Fate): set<string> {
      match provider
      case Fake => {podIp}
      case Cloud(true) => {}
      case Cloud(false) =>
        match fate
        case NotProvisioned => {}
        case Unusable => {podIp}
        case Up(ip) => {ip}
    }

    /** m.vmMap[podData.Id] = podData. */
    method Insert(pod: PodData)
      requires PodsOk() && pod.client != null && pod.client.owner == pod.id && pod.client.OwnedBy(pod.id)
      modifies `vmMap, `clients
      ensures PodsOk() && vmMap == old(vmMap)[pod.id := pod]
      ensures Views() == old(Views())[pod.id := pod.View()]
    {
      clients := clients + {pod.client};
      vmMap := vmMap[pod.id := pod];
    }

    /** createSandbox. */
    method CreateSandbox(uid: string, labels: map<string, string>, fate: S.Fate, cloud: seq<Outcome>, randomId: string)
      returns (r: Result<string>)
      requires Valid() && ipList.items != [] && |cloud| == |mounts.Volumes(uid)|
      modifies this, ipList, ipList.Repr
      ensures Valid() && ipList.Repr == old(ipList.Repr)
      ensures World() == S.CreateStep(old(World()), uid, fate, randomId)
      ensures r.Err? <==> provider == S.Cloud(false) && !fate.Up?
      ensures if r.Err? then vmMap == old(vmMap)
              else r.value in vmMap && fresh(vmMap[r.value]) && vmMap == old(vmMap)[r.value := vmMap[r.value]]
                   && r.value == if provider.Fake? then randomId else old(ipList.items)[0]
      ensures r.Ok? ==> IsFor(vmMap[r.value], uid, labels, mounts.Volumes(uid))
      ensures r.Ok? && provider == S.Cloud(false) ==>
                vmMap[r.value].data != null && vmMap[r.value].data.Valid()
                && vmMap[r.value].data.calls == BootCalls(mounts.Volumes(uid), cloud)
    {
      var pod := RunPodSandbox(uid, labels, fate, mounts.Volumes(uid), cloud, randomId);
      if pod == null { return Err; }
      Insert(pod);
      return Ok(pod.id);
    }

    /** getPodData. */
    method GetPodData(id: string) returns (pod: PodData?)
      ensures pod == if id in vmMap then vmMap[id] else null
    {
      return if id in vmMap then vmMap[id] else null;
    }

    ghost function ContainersOf(id: string): set<Container>
      reads this, vmMap.Values, clients
    {
      if id in vmMap && vmMap[id].client in clients then vmMap[id].client.contMap.Values else {}
    }

    /** stopSandbox. answers: the client lists its containers; failing: the containers it then fails to stop. */
    method StopSandbox(id: string, answers: bool, failing: set<string>, now: int) returns (ok: bool)
      requires PodsOk()
      modifies if id in vmMap then {vmMap[id]} else {}, ContainersOf(id)
      ensures PodsOk() && ok == (id in vmMap && answers)
      ensures World() == S.StopStep(old(World()), id, answers)
      ensures ok ==> vmMap[id].client == old(vmMap[id].client) && !vmMap[id].ready && vmMap[id].volumes == []
      ensures ok ==> vmMap[id].client.Infos()
                     == Stopped(old(vmMap[id].client.Infos()), old(vmMap[id].client.contMap).Keys - failing)
      ensures ok ==> (AllExited(vmMap[id].client.Infos(), {})
                      <==> AllExited(old(vmMap[id].client.Infos()), old(vmMap[id].client.contMap).Keys - failing))
    {
      if id !in vmMap || !answers { return false; }
      StopIsComplete(vmMap[id].client.Infos(), failing);
      Stop(id, vmMap[id].client, failing, now);
      return true;
    }

    method Stop(id: string, client: FakeContainerProvider, failing: set<string>, now: int)
      requires PodsOk() && id in vmMap && vmMap[id].client == client
      modifies vmMap[id], client.contMap.Values
      ensures PodsOk() && vmMap[id].client == client && !vmMap[id].ready && vmMap[id].volumes == []
      ensures Views() == old(Views())[id := old(Views())[id].(ready := false)]
      ensures client.Infos() == Stopped(old(client.Infos()), old(client.contMap).Keys - failing)
    {
      var pod := vmMap[id];
      ExitContainers(client, failing, now);
      assert PodsOk() && Views() == old(Views());
      MarkStopped(id, pod);
    }

    method ExitContainers(client: FakeContainerProvider, failing: set<string>, now: int)
      requires PodsOk() && client.Valid()
      modifies client.contMap.Values
      ensures PodsOk() && Views() == old(Views())
      ensures client.Infos() == Stopped(old(client.Infos()), old(client.contMap).Keys - failing)
    {
      StopContainers(client, failing, now);
    }

    method MarkStopped(id: string, pod: PodData)
      requires PodsOk() && id in vmMap && vmMap[id] == pod
      modifies pod`ready, pod`volumes
      ensures PodsOk() && !pod.ready && pod.volumes == []
      ensures Views() == old(Views())[id := old(Views())[id].(ready := false)]
    {
      ghost var views := Views();
      assert forall i | i in vmMap && i != id :: vmMap[i] != pod;
      pod.StopAndDetach();
      forall i | i in vmMap ensures PodOk(i, vmMap[i]) { assert old(PodOk(i, vmMap[i])); }
      forall i | i in vmMap ensures vmMap[i].View() == if i == id then views[i].(ready := false) else views[i] {}
    }

    /** removePodSandbox. destroyed: VM.Destroy succeeds. */
    method RemovePodSandbox(id: string, destroyed: bool) returns (ok: bool)
      requires Valid()
      modifies this, ipList, ipList.Repr, mounts, if id in vmMap then {vmMap[id]} else {}
      ensures Valid() && fresh(ipList.Repr - old(ipList.Repr))
      ensures World() == S.RemoveStep(old(World()), id, destroyed)
      ensures ok == (id in old(vmMap) && (old(vmMap[id].booted) ==> destroyed))
      ensures if ok then vmMap == old(vmMap) - {id} && old(vmMap[id]).client == null
                         && mounts.history == old(mounts.history) + [RemovePod(old(vmMap[id]).uid)]
              else vmMap == old(vmMap) && mounts.history == old(mounts.history)
      ensures forall u :: mounts.Volumes(u) == if ok && u == old(vmMap[id]).uid then [] else old(mounts.Volumes(u))
      ensures mounts.mountMap == old(mounts.mountMap)
    {
      if id !in vmMap { return false; }
      if vmMap[id].booted && !destroyed { return false; }
      Remove(id);
      return true;
    }

    method Remove(id: string)
      requires Valid() && id in vmMap
      modifies `live, `vmMap, ipList, ipList.Repr, mounts, vmMap[id]
      ensures Valid() && fresh(ipList.Repr - old(ipList.Repr))
      ensures World() == S.RemoveStep(old(World()), id, true)
      ensures vmMap == old(vmMap) - {id} && old(vmMap[id]).client == null
      ensures mounts.history == old(mounts.history) + [RemovePod(old(vmMap[id]).uid)]
      ensures forall u :: mounts.Volumes(u) == if u == old(vmMap[id]).uid then [] else old(mounts.Volumes(u))
      ensures mounts.mountMap == old(mounts.mountMap)
    {
      var pod := vmMap[id];
      ForgetPod(id);
      ForgetVolumes(pod.uid);
    }

    /** delete(m.volumeMap, uid). */
    method ForgetVolumes(uid: string)
      requires Valid()
      modifies mounts
      ensures Valid() && World() == old(World()) && mounts.history == old(mounts.history) + [RemovePod(uid)]
      ensures forall u :: mounts.Volumes(u) == if u == uid then [] else old(mounts.Volumes(u))
      ensures mounts.mountMap == old(mounts.mountMap)
    {
      mounts.RemoveVolumes(uid);
    }

    method ForgetPod(id: string)
      requires PodsOk() && ipList.Valid() && id in vmMap
      modifies `live, `vmMap, ipList, ipList.Repr, vmMap[id]
      ensures PodsOk() && ipList.Valid() && fresh(ipList.Repr - old(ipList.Repr))
      ensures World() == S.RemoveStep(old(World()), id, true)
      ensures vmMap == old(vmMap) - {id} && old(vmMap[id]).client == null
    {
      var pod := vmMap[id];
      ReleasePod(pod);
      assert forall i | i in vmMap && i != id :: vmMap[i] != pod && PodOk(i, vmMap[i]);
      DeleteEntry(id);
    }

    /** podData.RemovePod() and the provider's RemovePodSandbox, of a pod whose VM is gone if it had one. */
    method ReleasePod(pod: PodData)
      requires ipList.Valid() && pod.client != null
      modifies `live, ipList, ipList.Repr, pod
      ensures ipList.Valid() && fresh(ipList.Repr - old(ipList.Repr)) && pod.client == null
      ensures World() == old(World()).(pool := old(World()).pool + [pod.ip],
                                       live := if old(pod.booted) then old(live) - {pod.ip} else old(live))
    {
      ghost var views := Views();
      if pod.booted { live := live - {pod.ip}; }
      pod.RemovePod();
      assert Views() == views;
      GiveBack(pod.ip);
    }

    /** ipList.Append(data.Ip). */
    method GiveBack(ip: string)
      requires ipList.Valid()
      modifies ipList, ipList.Repr
      ensures ipList.Valid() && fresh(ipList.Repr - old(ipList.Repr))
      ensures World() == old(World()).(pool := old(World()).pool + [ip])
    {
      ipList.Append(ip);
    }

    /** delete(m.vmMap, sandboxId), of a pod that may have lost its client. */
    method DeleteEntry(id: string)
      requires forall i | i in vmMap && i != id :: PodOk(i, vmMap[i])
      modifies `vmMap
      ensures PodsOk() && vmMap == old(vmMap) - {id}
      ensures World() == old(World()).(pods := old(World()).pods - {id})
    {
      vmMap := vmMap - {id};
    }

    /** createSandbox and removePodSandbox of the pod it made: the volumes that were added for its uid are forgotten,
        those of other uids are kept, and its address is back in the pool, behind all others. */
    method CreateThenRemove(uid: string, labels: map<string, string>, fate: S.Fate, cloud: seq<Outcome>,
                            randomId: string)
      returns (ok: bool)
      requires Valid() && ipList.items != [] && |cloud| == |mounts.Volumes(uid)|
      modifies this, ipList, ipList.Repr, mounts
      ensures Valid() && ok == (provider == S.Cloud(false) ==> fate.Up?)
      ensures forall u :: mounts.Volumes(u) == if ok && u == uid then [] else old(mounts.Volumes(u))
      ensures ok ==> ipList.items == old(ipList.items)[1..]
                                     + [if provider == S.Cloud(false) then fate.ip else old(ipList.items)[0]]
    {
      var r := CreateSandbox(uid, labels, fate, cloud, randomId);
      if r.Err? { return false; }
      ok := RemovePodSandbox(r.value, true);
    }

    /** preCreateContainer. translated: the image can be told from its name (asked on gcp only); cloud is how the
        attaches of the boot come out. */
    method PreCreateContainer(id: string, translated: bool, fate: S.Fate, cloud: seq<Outcome>) returns (ok: bool)
      requires PodsOk() && id in vmMap && |cloud| == |vmMap[id].volumes|
      modifies `live, `clients, vmMap[id]
      ensures PodsOk() && vmMap[id].volumes == old(vmMap[id].volumes)
      ensures World() == S.BootStep(old(World()), id, if translated then fate else S.NotProvisioned)
      ensures ok == (provider == S.Cloud(true) ==> !old(vmMap[id].booted) && translated && fate.Up?)
      ensures !(ok && provider == S.Cloud(true)) ==>
              vmMap[id].client == old(vmMap[id].client) && vmMap[id].data == old(vmMap[id].data)
      ensures ok && provider == S.Cloud(true) ==>
                fresh(vmMap[id].client) && vmMap[id].data != null && vmMap[id].data.Valid()
                && vmMap[id].data.calls == BootCalls(old(vmMap[id].volumes), cloud)
    {
      if provider != S.Cloud(true) { return true; }
      var pod := vmMap[id];
      if pod.booted || !translated { return false; }
      match fate {
        case NotProvisioned => return false;
        case Unusable =>
          GoesLive(pod.ip);
          return false;
        case Up(ip) =>
          BootImage(id, ip, cloud);
          return true;
      }
    }

    /** The boot of an image pod that succeeds. */
    method BootImage(id: string, ghost ip: string, cloud: seq<Outcome>)
      requires PodsOk() && id in vmMap && |cloud| == |vmMap[id].volumes|
      modifies `live, `clients, vmMap[id]
      ensures PodsOk() && fresh(vmMap[id].client) && vmMap[id].data != null && vmMap[id].data.Valid()
      ensures vmMap[id].volumes == old(vmMap[id].volumes)
      ensures vmMap[id].data.calls == BootCalls(old(vmMap[id].volumes), cloud)
      ensures World() == old(World()).(pods := old(Views())[id := old(Views())[id].(booted := true)],
                                       live := old(live) + {ip})
    {
      var client, data := BootVm(id, vmMap[id].volumes, cloud);
      GoesLive(ip);
      InstallBoot(id, client, data);
    }

    /** A VM has been provisioned. */
    ghost method GoesLive(ip: string)
      modifies `live
      ensures live == old(live) + {ip} && World() == old(World()).(live := live)
    {
      live := live + {ip};
    }

    method InstallBoot(id: string, client: FakeContainerProvider, data: EbsData)
      requires PodsOk() && id in vmMap && client.contMap == map[] && client.owner == id
      modifies `clients, vmMap[id]
      ensures PodsOk() && vmMap[id].client == client && vmMap[id].data == data
      ensures vmMap[id].volumes == old(vmMap[id].volumes)
      ensures Views() == old(Views())[id := old(Views())[id].(booted := true)]
    {
      ghost var views := Views();
      var pod := vmMap[id];
      assert forall i | i in vmMap && i != id :: vmMap[i] != pod;
      clients := clients + {client};
      pod.BootWith(client, data);
      assert Views() == views[id := views[id].(booted := true)];
    }

    // ---------- Import ----------

    /** One instance that answers: its address leaves the pool. */
    method ImportOne(podIp: string, uid: string, labels: map<string, string>) returns (pod: PodData)
      requires ipList.Valid()
      modifies ipList, ipList.Repr
      ensures ipList.Valid() && ipList.Repr == old(ipList.Repr) && ipList.items == Without(old(ipList.items), podIp)
      ensures fresh(pod) && fresh(pod.client) && IsImported(pod, Imported(podIp, uid, labels))
    {
      ipList.FindAndRemove(podIp);
      pod := UnbootedPod(podIp, podIp, uid, labels, true, []);
    }

    /** ListInstances of the cloud providers: takes the address of every instance that answers out of the pool.
        listed: the cloud lists its instances at all. */
    method ListInstances(listed: bool, instances: seq<S.Instance>)
      returns (r: Option<seq<PodData>>, ghost found: seq<Imported>)
      requires ipList.Valid()
      modifies ipList, ipList.Repr
      ensures ipList.Valid() && ipList.Repr == old(ipList.Repr)
      ensures ipList.items == if listed then S.PoolAfter(old(ipList.items), instances) else old(ipList.items)
      ensures r.Some? ==> |r.value| == |found|
                          && forall k | 0 <= k < |found| :: IsImported(r.value[k], found[k])
      ensures forall x | x in found :: Answered(instances, x)
      ensures (if listed then S.Collect(map[], instances) else None) == if r.Some? then Some(ById(found)) else None
    {
      var pods: seq<PodData> := [];
      found := [];
      if !listed { return None, found; }
      for i := 0 to |instances|
        invariant ipList.Valid() && ipList.Repr == old(ipList.Repr)
        invariant S.PoolAfter(old(ipList.items), instances) == S.PoolAfter(ipList.items, instances[i..])
        invariant S.Collect(map[], instances) == S.Collect(ById(found), instances[i..])
        invariant forall x | x in found :: Answered(instances, x)
        invariant |pods| == |found|
                  && forall k | 0 <= k < |found| :: fresh(pods[k]) && IsImported(pods[k], found[k])
      {
        assert instances[i..][1..] == instances[i + 1..];
        match instances[i].answer {
          case Unreachable => return None, found;
          case NoPodIp =>
          case NoConfig =>
          case Config(podIp, uid, labels) =>
            var pod := ImportOne(podIp, uid, labels);
            pods := pods + [pod];
            ByIdStep(found, Imported(podIp, uid, labels));
            found := found + [Imported(podIp, uid, labels)];
        }
      }
      return Some(pods), found;
    }

    /** importSandboxes of a manager that lists nothing yet; instances are what the cloud runs. */
    method ImportSandboxes(listed: bool, instances: seq<S.Instance>)
      requires Valid() && vmMap == map[] && lost == {} && live == set i | i in instances :: i.addr
      modifies this, ipList, ipList.Repr
      ensures Valid() && ipList.Repr == old(ipList.Repr)
      ensures World() == S.Import(provider, old(ipList.items), listed, instances)
      ensures forall id | id in vmMap :: exists x :: Answered(instances, x) && IsImported(vmMap[id], x)
    {
      ghost var pool := ipList.items;
      var pods, found := ListInstances(listed, instances);
      if pods.None? {
        lost := if listed then S.Members(pool) * S.Claimed(instances) else {};
        return;
      }
      ListAll(pods.value, found);
    }

    method ListAll(pods: seq<PodData>, ghost found: seq<Imported>)
      requires PodsOk() && vmMap == map[]
      requires |pods| == |found| && forall k | 0 <= k < |found| :: IsImported(pods[k], found[k])
      modifies `vmMap, `clients
      ensures PodsOk() && Views() == ById(found)
      ensures forall id | id in vmMap :: exists k :: 0 <= k < |found| && IsImported(vmMap[id], found[k])
    {
      for i := 0 to |pods|
        invariant PodsOk() && Views() == ById(found[..i])
        invariant forall id | id in vmMap :: exists k :: 0 <= k < i && IsImported(vmMap[id], found[k])
      {
        assert found[..i + 1] == found[..i] + [found[i]];
        ByIdStep(found[..i], found[i]);
        Insert(pods[i]);
      }
      assert found[..|found|] == found;
    }

    // ---------- Containers ----------

    /** The last step of createContainer: client.CreateContainer(req). */
    method CreateContainer(podId: string, spec: Spec) returns (r: Result<string>)
      requires PodsOk()
      modifies ClientOf(podId)
      ensures PodsOk() && vmMap == old(vmMap)
      ensures r == if podId in vmMap then Ok(ContainerId(podId, spec.metadata.name)) else Err
      ensures r.Ok? ==> vmMap[podId].client == old(vmMap[podId].client)
                        && vmMap[podId].client.Infos()
                            == old(vmMap[podId].client.Infos())[r.value := Info(r.value, spec, Created)]
    {
      if podId !in vmMap { return Err; }
      var id := vmMap[podId].client.CreateContainer(podId, spec);
      return Ok(id);
    }

    ghost function ClientOf(podId: string): set<FakeContainerProvider>
      reads this, vmMap.Values
    {
      if podId in vmMap && vmMap[podId].client != null then {vmMap[podId].client} else {}
    }

    /** How StartContainer, StopContainer, RemoveContainer and ContainerStatus find their pod. */
    method Route(containerId: string) returns (pod: PodData?)
      ensures pod == match ParseContainer(containerId)
                     case Err => null
                     case Ok((podId, _)) => if podId in vmMap then vmMap[podId] else null
    {
      var parsed := ParseContainer(containerId);
      if parsed.Err? { return null; }
      pod := GetPodData(parsed.value.0);
    }

    ghost function ContainersNamedBy(containerId: string): set<Container>
      reads this, vmMap.Values, clients
    {
      match PodOf(containerId)
      case Err => {}
      case Ok(p) => ContainersOf(p)
    }

    /** StopContainer: only the containers of the pod the id names are touched, and only the named one changes. */
    method StopContainer(containerId: string, now: int) returns (ok: bool)
      requires PodsOk()
      modifies ContainersNamedBy(containerId)
      ensures PodsOk() && Views() == old(Views())
      ensures match PodOf(containerId)
              case Err => !ok
              case Ok(p) =>
                && (ok <==> p in vmMap && containerId in vmMap[p].client.contMap)
                && (p in vmMap ==>
                      var infos := old(vmMap[p].client.Infos());
                      vmMap[p].client.Infos()
                      == if ok then infos[containerId := infos[containerId].(state := Exited)] else infos)
    {
      var pod := Route(containerId);
      if pod == null { return false; }
      ok := pod.client.StopContainer(containerId, now);
    }

    /** Pod p lists container c. */
    ghost predicate Reports(p: string, c: Info)
      requires PodsOk()
      reads this, vmMap.Values, clients, ContainersOf(p)
    {
      p in vmMap && c.id in vmMap[p].client.contMap && c == vmMap[p].client.contMap[c.id].ToKubeContainer()
    }

    /** The unfiltered listContainers. */
    method ListContainers() returns (results: seq<Info>)
      requires PodsOk()
      ensures forall c :: c in results <==> exists p :: Reports(p, c)
      ensures Separate(vmMap.Keys) ==> forall i, j | 0 <= i < j < |results| :: results[i].id != results[j].id
      ensures Lived(World()) ==> forall i, j | 0 <= i < j < |results| :: results[i].id != results[j].id
    {
      if Lived(World()) { LivedIsSeparate(World()); assert World().pods.Keys == vmMap.Keys; }
      results := [];
      var left := vmMap.Keys;
      while left != {}
        invariant left <= vmMap.Keys
        invariant forall c :: c in results <==> exists p :: p !in left && Reports(p, c)
        invariant Separate(vmMap.Keys) ==> forall i, j | 0 <= i < j < |results| :: results[i].id != results[j].id
        decreases left
      {
        var p :| p in left;
        var containers := vmMap[p].client.ListContainers();
        forall c ensures c in containers <==> Reports(p, c) {}
        ghost var before := results;
        results := results + containers;
        if Separate(vmMap.Keys) {
          forall i, j | 0 <= i < |before| && 0 <= j < |containers| ensures before[i].id != containers[j].id {
            assert before[i] in before && containers[j] in containers;
            var q: string :| q !in left && Reports(q, before[i]);
            assert Reports(p, containers[j]);
            ReportsApart(this, q, before[i], p, containers[j]);
          }
        }
        left := left - {p};
      }
    }

    /** The unfiltered part of listPodSandbox: the pods that pass the filter, by id. */
    method ListPodSandbox(filterId: string, state: Option<bool>, selector: map<string, string>)
      returns (ids: set<string>)
      requires PodsOk()
      ensures forall id :: id in ids <==> id in vmMap && (filterId == "" || filterId == id)
                                          && (state.None? || state.value == vmMap[id].ready)
                                          && forall k | k in selector ::
                                               k in vmMap[id].labels && vmMap[id].labels[k] == selector[k]
    {
      ids := {};
      var left := vmMap.Keys;
      while left != {}
        invariant left <= vmMap.Keys
        invariant forall id :: id in ids <==> id in vmMap && id !in left && (filterId == "" || filterId == id)
                                              && (state.None? || state.value == vmMap[id].ready)
                                              && forall k | k in selector ::
                                                   k in vmMap[id].labels && vmMap[id].labels[k] == selector[k]
        decreases left
      {
        var id :| id in left;
        var out := vmMap[id].Filter(filterId, state, selector);
        if !out { ids := ids + {id}; }
        left := left - {id};
      }
    }
  }

  /** The pod a container id names. */
  function PodOf(containerId: string): Result<string> {
    match ParseContainer(containerId)
    case Err => Err
    case Ok((podId, _)) => Ok(podId)
  }

  /** In every pod of vmMap every container is keyed by its own id, which is the pod's id, ":" and the container's
      name, and routes back to that pod exactly when neither part holds ":". */
  lemma OwnedAndRouted(m: Manager, podId: string, id: string)
    requires m.PodsOk() && podId in m.vmMap && id in m.vmMap[podId].client.contMap
    ensures var c := m.vmMap[podId].client.contMap[id];
            && c.id == id == ContainerId(podId, c.spec.metadata.name)
            && PodOf(id) == if ':' !in podId && ':' !in c.spec.metadata.name then Ok(podId) else Err
  {
    IdRoundTrip(podId, m.vmMap[podId].client.contMap[id].spec.metadata.name);
  }

  // ---------- Container ids across pods ----------

  /** Two different pods can have containers of one id exactly when the id of one, followed by ":", begins the
      other's. */
  lemma IdsClash(p: string, q: string)
    requires p != q
    ensures (exists x, y :: ContainerId(p, x) == ContainerId(q, y)) <==> p + ":" <= q || q + ":" <= p
  {
    if x, y :| ContainerId(p, x) == ContainerId(q, y) {
      if |p| <= |q| { ClashIsPrefix(p, x, q, y); } else { ClashIsPrefix(q, y, p, x); }
    }
    if p + ":" <= q { PrefixClashes(p, q); }
    if q + ":" <= p {
      PrefixClashes(q, p);
      var x, y :| ContainerId(q, x) == ContainerId(p, y);
      assert ContainerId(p, y) == ContainerId(q, x);
    }
  }

  lemma ClashIsPrefix(p: string, x: string, q: string, y: string)
    requires p != q && |p| <= |q| && ContainerId(p, x) == ContainerId(q, y)
    ensures p + ":" <= q
  {
    var s := ContainerId(p, x);
    assert s[..|p|] == p && s[..|q|] == q && s[|p|] == ':';
    assert |p| < |q|;
    assert q[..|p|] == p && q[|p|] == ':';
  }

  lemma PrefixClashes(p: string, q: string)
    requires p + ":" <= q
    ensures exists x, y :: ContainerId(p, x) == ContainerId(q, y)
  {
    var rest := q[|p| + 1..];
    assert q == p + ":" + rest;
    assert ContainerId(p, rest + ":") == ContainerId(q, "");
  }

  /** No id followed by ":" begins another. */
  ghost predicate Separate(ids: set<string>) {
    forall p, q | p in ids && q in ids && p != q :: !(p + ":" <= q)
  }

  lemma ColonBehind(p: string, q: string)
    requires p + ":" <= q
    ensures |p| < |q| && q[|p|] == ':'
  {
    assert (p + ":")[|p|] == ':';
  }

  lemma NoColonBehindBase(base: string, i: nat)
    ensures forall k | |base| < k < |Address(base, i)| :: Address(base, i)[k] != ':'
  {
    ItoaHasNo(i, ':');
    forall k | |base| < k < |Address(base, i)| ensures Address(base, i)[k] != ':' {
      assert Address(base, i)[k] == Itoa(i)[k - |base| - 1];
    }
  }

  /** Whatever the base, even one that holds ":", two addresses of it are separate. */
  lemma AddressesSeparate(base: string, i: nat, j: nat)
    ensures !(Address(base, i) + ":" <= Address(base, j))
  {
    NoColonBehindBase(base, j);
    if Address(base, i) + ":" <= Address(base, j) { ColonBehind(Address(base, i), Address(base, j)); }
  }

  /** w is reached by some import and honest handlers on a new provider's pool. The fake provider imports nothing and
      its random ids, "fake-" and letters, hold no ":". */
  ghost predicate Life(w: S.World, site: Site, base: string, listed: bool, instances: seq<S.Instance>,
                       es: seq<S.Event>)
  {
    && S.FromPool(NewPool(site, base), instances)
    && S.HonestRun(S.Import(w.provider, NewPool(site, base), listed, instances), es)
    && w == S.Run(S.Import(w.provider, NewPool(site, base), listed, instances), es)
    && (w.provider.Fake? ==> instances == [] && RandomNames(es))
  }

  ghost predicate RandomNames(es: seq<S.Event>) { forall e | e in es && e.Create? :: ':' !in e.id }

  ghost predicate Lived(w: S.World) {
    exists site, base, listed, instances, es :: Life(w, site, base, listed, instances, es)
  }

  /** A new manager after its import has lived, and lives on with every honest handler. */
  lemma LivedGoesOn(w: S.World, e: S.Event)
    requires Lived(w) && S.Possible(w, e) && S.Honest(w, e) && (w.provider.Fake? && e.Create? ==> ':' !in e.id)
    ensures Lived(S.Step(w, e))
  {
    var site, base, listed, instances, es :| Life(w, site, base, listed, instances, es);
    S.RunAppend(S.Import(w.provider, NewPool(site, base), listed, instances), es, e);
    assert Life(S.Step(w, e), site, base, listed, instances, es + [e]);
  }

  lemma LivedFromImport(provider: S.Provider, site: Site, base: string, listed: bool, instances: seq<S.Instance>)
    requires S.FromPool(NewPool(site, base), instances) && (provider.Fake? ==> instances == [])
    ensures Lived(S.Import(provider, NewPool(site, base), listed, instances))
  {
    assert Life(S.Import(provider, NewPool(site, base), listed, instances), site, base, listed, instances, []);
  }

  /** In every life the pods' ids are separate: with a cloud provider they are addresses of one base, with the fake
      provider they hold no ":". */
  lemma LivedIsSeparate(w: S.World)
    requires Lived(w)
    ensures Separate(w.pods.Keys)
  {
    var site, base, listed, instances, es :| Life(w, site, base, listed, instances, es);
    var start := S.Import(w.provider, NewPool(site, base), listed, instances);
    match w.provider
    case Fake =>
      assert start.pods == map[];
      S.RunNames(start, es, ':');
      forall p, q | p in w.pods && q in w.pods && p != q ensures !(p + ":" <= q) {
        if p + ":" <= q { ColonBehind(p, q); }
      }
    case Cloud(_) =>
      LifeConserves(site, base, w.provider, listed, instances, es);
      forall p, q | p in w.pods && q in w.pods && p != q ensures !(p + ":" <= q) {
        var i := IdIsAddress(w, site, base, p);
        var j := IdIsAddress(w, site, base, q);
        AddressesSeparate(base, i, j);
      }
  }

  lemma IdIsAddress(w: S.World, site: Site, base: string, id: string) returns (i: nat)
    requires S.Conserved(w, S.Members(NewPool(site, base))) && w.provider.Cloud? && id in w.pods
    ensures id == Address(base, i)
  {
    assert w.pods[id].ip in S.Held(w.pods);
    assert id in S.Members(NewPool(site, base));
    var k :| 0 <= k < |NewPool(site, base)| && NewPool(site, base)[k] == id;
    i := (match site case Aws => 4 case Gcp => 2 case NoCloud => 1) + k;
  }

  /** Container ids are unique across all pods a manager lists. */
  lemma IdsUnique(m: Manager, p: string, id: string, q: string, id': string)
    requires m.PodsOk() && Lived(m.World()) && p in m.vmMap && q in m.vmMap && p != q
    requires id in m.vmMap[p].client.contMap && id' in m.vmMap[q].client.contMap
    ensures id != id'
  {
    LivedIsSeparate(m.World());
    assert m.World().pods.Keys == m.vmMap.Keys;
    SeparateIdsUnique(m, p, id, q, id');
  }

  lemma SeparateIdsUnique(m: Manager, p: string, id: string, q: string, id': string)
    requires m.PodsOk() && Separate(m.vmMap.Keys) && p in m.vmMap && q in m.vmMap && p != q
    requires id in m.vmMap[p].client.contMap && id' in m.vmMap[q].client.contMap
    ensures id != id'
  {
    IdsClash(p, q);
    assert id == ContainerId(p, m.vmMap[p].client.contMap[id].spec.metadata.name);
    assert id' == ContainerId(q, m.vmMap[q].client.contMap[id'].spec.metadata.name);
  }

  lemma ReportsApart(m: Manager, p: string, c: Info, q: string, d: Info)
    requires m.PodsOk() && m.Reports(p, c) && m.Reports(q, d) && p != q && Separate(m.vmMap.Keys)
    ensures c.id != d.id
  {
    SeparateIdsUnique(m, p, c.id, q, d.id);
  }

  /** What an instance tells of its pod. */
  datatype Imported = Imported(ip: string, uid: string, labels: map<string, string>)

  /** Some instance answered with that. */
  ghost predicate Answered(instances: seq<S.Instance>, x: Imported) {
    exists i :: i in instances && i.answer == S.Config(x.ip, x.uid, x.labels)
  }

  /** A pod made by the import, its client its own and still empty. */
  ghost predicate IsImported(pod: PodData, from: Imported)
    reads pod, if pod.client != null then {pod.client} else {}
  {
    IsNew(pod) && pod.id == from.ip && pod.labels == from.labels && pod.View() == S.Pod(from.ip, from.uid, true, true)
  }

  /** The imported pods by id, later ones over earlier ones. */
  ghost function ById(found: seq<Imported>): map<string, S.Pod> {
    if found == [] then map[]
    else
      var last := found[|found| - 1];
      ById(found[..|found| - 1])[last.ip := S.Pod(last.ip, last.uid, true, true)]
  }

  lemma ByIdStep(found: seq<Imported>, last: Imported)
    ensures ById(found + [last]) == ById(found)[last.ip := S.Pod(last.ip, last.uid, true, true)]
  {
    assert (found + [last])[..|found|] == found;
  }

  /** The containers with the ids in done exited, the others as they were. */
  function Stopped(infos: map<string, Info>, done: set<string>): map<string, Info> {
    map id | id in infos :: if id in done then infos[id].(state := Exited) else infos[id]
  }

  /** All containers but those in except are exited. */
  ghost predicate AllExited(infos: map<string, Info>, except: set<string>) {
    forall id | id in infos && id !in except :: infos[id].state == Exited
  }

  /** After stopSandbox every container of the pod is exited exactly when those that failed to stop already were. */
  lemma StopIsComplete(infos: map<string, Info>, failing: set<string>)
    ensures AllExited(Stopped(infos, infos.Keys - failing), {}) <==> AllExited(infos, infos.Keys - failing)
  {
    var stopped := Stopped(infos, infos.Keys - failing);
    if AllExited(stopped, {}) {
      forall id | id in infos && id in failing ensures infos[id].state == Exited { assert stopped[id] == infos[id]; }
    }
  }

  lemma StoppedOne(infos: map<string, Info>, done: set<string>, id: string)
    requires id in infos
    ensures Stopped(infos, done + {id}) == Stopped(infos, done)[id := Stopped(infos, done)[id].(state := Exited)]
  {
  }

  method StopOne(client: FakeContainerProvider, id: string, now: int, ghost infos: map<string, Info>,
                 ghost done: set<string>)
    requires client.Valid() && id in client.contMap && id in infos && client.Infos() == Stopped(infos, done)
    modifies client.contMap.Values
    ensures client.Valid() && client.contMap == old(client.contMap)
    ensures client.Infos() == Stopped(infos, done + {id})
  {
    StoppedOne(infos, done, id);
    var _ := client.StopContainer(id, now);
  }

  /** The loop of stopSandbox over the listed containers; a container that fails to stop is passed over. */
  method StopContainers(client: FakeContainerProvider, failing: set<string>, now: int)
    requires client.Valid()
    modifies client.contMap.Values
    ensures client.Valid() && client.contMap == old(client.contMap)
    ensures client.Infos() == Stopped(old(client.Infos()), client.contMap.Keys - failing)
  {
    ghost var infos := client.Infos();
    var containers := client.ListContainers();
    ghost var done: set<string> := {};
    for i := 0 to |containers|
      invariant client.Valid() && client.contMap == old(client.contMap)
      invariant done == IdSet(containers[..i]) - failing
      invariant client.Infos() == Stopped(infos, done)
    {
      var id := containers[i].id;
      IdSetStep(containers, i);
      if id !in failing {
        StopOne(client, id, now, infos, done);
        done := done + {id};
      }
    }
    assert containers[..|containers|] == containers;
  }
}
