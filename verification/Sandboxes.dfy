/** The sandbox lifecycle with every handler as one step: where the addresses of the pool are and which of them
    belong to a live VM, over every run of import, create, boot, stop and remove. */
module Sandboxes {
  import opened Wrappers
  import opened Deques

  /** aws and gcp, booting pods at once or at their first container; or the fake provider. */
  datatype Provider = Cloud(imagePod: bool) | Fake

  datatype Pod = Pod(ip: string, uid: string, ready: bool, booted: bool)

  /** pods is vmMap by value. lost holds the addresses taken by a create or an import that then failed, live the
      addresses of running VMs. */
  datatype World = World(provider: Provider, pool: seq<string>, pods: map<string, Pod>, lost: set<string>,
                         live: set<string>)

  /** What comes of a bootSandbox: no VM, a VM that a later step gave up on, or a VM that reports its address. */
  datatype Fate = NotProvisioned | Unusable | Up(ip: string)

  datatype Event =
    | Create(uid: string, fate: Fate, id: string)  // id is the random name of the fake provider
    | Boot(id: string, fate: Fate)
    | Stop(id: string, listed: bool)
    | Remove(id: string, destroyed: bool)

  /** Whether a status call reports a pod as ready: once stopped never; otherwise a booted VM is asked. */
  function PodState(ready: bool, booted: bool, answers: bool): bool { ready && (booted ==> answers) }

  /** RunPodSandbox panics on an empty pool. */
  predicate Possible(w: World, e: Event) { e.Create? ==> w.pool != [] }

  function CreateStep(w: World, uid: string, fate: Fate, id: string): World
    requires w.pool != []
  {
    var addr, w1 := w.pool[0], w.(pool := w.pool[1..]);
    match w.provider
    case Fake => w1.(pods := w.pods[id := Pod(addr, uid, true, true)], live := w.live + {addr})
    case Cloud(true) => w1.(pods := w.pods[addr := Pod(addr, uid, true, false)])
    case Cloud(false) =>
      match fate
      case NotProvisioned => w1.(lost := w.lost + {addr})
      case Unusable => w1.(lost := w.lost + {addr}, live := w.live + {addr})
      case Up(ip) => w1.(pods := w.pods[addr := Pod(ip, uid, true, true)], live := w.live + {ip})
  }

  /** The part of preCreateContainer that boots: an image pod that is not booted yet. */
  predicate NeedsBoot(w: World, id: string) {
    w.provider == Cloud(true) && id in w.pods && !w.pods[id].booted
  }

  function BootStep(w: World, id: string, fate: Fate): World {
    if !NeedsBoot(w, id) then w
    else match fate
      case NotProvisioned => w
      case Unusable => w.(live := w.live + {w.pods[id].ip})
      case Up(ip) => w.(pods := w.pods[id := w.pods[id].(booted := true)], live := w.live + {ip})
  }

  function StopStep(w: World, id: string, listed: bool): World {
    if id in w.pods && listed then w.(pods := w.pods[id := w.pods[id].(ready := false)]) else w
  }

  function RemoveStep(w: World, id: string, destroyed: bool): World {
    if id !in w.pods || (w.pods[id].booted && !destroyed) then w
    else
      var p := w.pods[id];
      w.(pods := w.pods - {id}, pool := w.pool + [p.ip], live := if p.booted then w.live - {p.ip} else w.live)
  }

  function Step(w: World, e: Event): World
    requires Possible(w, e)
  {
    match e
    case Create(uid, fate, id) => CreateStep(w, uid, fate, id)
    case Boot(id, fate) => BootStep(w, id, fate)
    case Stop(id, listed) => StopStep(w, id, listed)
    case Remove(id, destroyed) => RemoveStep(w, id, destroyed)
  }

  // ---------- Address conservation ----------

  function Held(pods: map<string, Pod>): set<string> { set id | id in pods :: pods[id].ip }

  function Members(s: seq<string>): set<string> { set x | x in s }

  /** Every address of the initial pool is free, held or lost, in only one way, the free ones once each; no two
      pods share an address; and with a cloud provider a pod is known by the address it holds. */
  ghost predicate Conserved(w: World, initial: set<string>) {
    && NoDup(w.pool)
    && (forall i, j | i in w.pods && j in w.pods && i != j :: w.pods[i].ip != w.pods[j].ip)
    && Members(w.pool) !! Held(w.pods) && Members(w.pool) !! w.lost && Held(w.pods) !! w.lost
    && Members(w.pool) + Held(w.pods) + w.lost == initial
    && (w.provider.Cloud? ==> forall id | id in w.pods :: w.pods[id].ip == id)
  }

  /** The VM gets the address it asked for; a random fake id is new. */
  predicate Honest(w: World, e: Event)
    requires Possible(w, e)
  {
    e.Create? ==>
      match w.provider
      case Fake => e.id !in w.pods
      case Cloud(true) => true
      case Cloud(false) => e.fate.Up? ==> e.fate.ip == w.pool[0]
  }

  lemma CreateConserves(w: World, initial: set<string>, uid: string, fate: Fate, id: string)
    requires Conserved(w, initial) && w.pool != []
    ensures Conserved(CreateStep(w, uid, fate, id), initial) <==> Honest(w, Create(uid, fate, id))
  {
    if w.provider == Cloud(false) && !fate.Up? {
      TakeConserves(w, initial);
    } else if Honest(w, Create(uid, fate, id)) {
      var w' := CreateStep(w, uid, fate, id);
      var key := if w.provider.Fake? then id else w.pool[0];
      NewPodConserves(w, initial, key, Pod(w.pool[0], uid, true, w.provider != Cloud(true)), w'.live);
    } else if w.provider.Fake? {
      FakeCollision(w, initial, uid, fate, id);
    } else {
      assert CreateStep(w, uid, fate, id).pods[w.pool[0]].ip == fate.ip != w.pool[0];
    }
  }

  /** The first free address is in no other place. */
  lemma HeadApart(w: World, initial: set<string>)
    requires Conserved(w, initial) && w.pool != []
    ensures Members(w.pool) == {w.pool[0]} + Members(w.pool[1..]) && w.pool[0] !in Members(w.pool[1..])
            && NoDup(w.pool[1..])
    ensures w.pool[0] !in Held(w.pods) && w.pool[0] !in w.lost
    ensures forall i | i in w.pods :: w.pods[i].ip != w.pool[0]
  {
    assert w.pool == [w.pool[0]] + w.pool[1..];
    assert w.pool[0] in Members(w.pool);
    forall i | i in w.pods ensures w.pods[i].ip != w.pool[0] { assert w.pods[i].ip in Held(w.pods); }
  }

  lemma TakeConserves(w: World, initial: set<string>)
    requires Conserved(w, initial) && w.pool != []
    ensures forall live :: Conserved(w.(pool := w.pool[1..], lost := w.lost + {w.pool[0]}, live := live), initial)
  {
    HeadApart(w, initial);
  }

  lemma NewPodConserves(w: World, initial: set<string>, key: string, p: Pod, live: set<string>)
    requires Conserved(w, initial) && w.pool != [] && p.ip == w.pool[0]
    requires if w.provider.Fake? then key !in w.pods else key == p.ip
    ensures Conserved(w.(pool := w.pool[1..], pods := w.pods[key := p], live := live), initial)
  {
    HeadApart(w, initial);
    assert key !in w.pods;
    HeldAdd(w.pods, key, p);
  }

  lemma HeldAdd(pods: map<string, Pod>, id: string, p: Pod)
    requires id !in pods
    ensures Held(pods[id := p]) == Held(pods) + {p.ip}
  {
    var pods' := pods[id := p];
    forall x ensures x in Held(pods') <==> x in Held(pods) + {p.ip} {
      if x in Held(pods) { var i :| i in pods && pods[i].ip == x; assert pods'[i].ip == x; }
      assert pods'[id].ip == p.ip;
    }
  }

  /** With a random id that is taken, the pod that had it drops out of vmMap and its address is nowhere. */
  lemma FakeCollision(w: World, initial: set<string>, uid: string, fate: Fate, id: string)
    requires Conserved(w, initial) && w.pool != [] && w.provider == Fake && id in w.pods
    ensures !Conserved(CreateStep(w, uid, fate, id), initial)
  {
    var w' := CreateStep(w, uid, fate, id);
    var gone := w.pods[id].ip;
    assert gone in Held(w.pods) && gone in initial;
    assert w.pool[0] in Members(w.pool);
    assert gone !in Members(w'.pool) by { assert forall x | x in w'.pool :: x in w.pool; }
    assert gone !in Held(w'.pods);
  }

  lemma RemoveConserves(w: World, initial: set<string>, id: string, destroyed: bool)
    requires Conserved(w, initial)
    ensures Conserved(RemoveStep(w, id, destroyed), initial)
  {
    var w' := RemoveStep(w, id, destroyed);
    if w' != w {
      var ip := w.pods[id].ip;
      assert ip in Held(w.pods);
      assert Members(w'.pool) == Members(w.pool) + {ip};
      assert w.pods == w'.pods[id := w.pods[id]];
      HeldAdd(w'.pods, id, w.pods[id]);
      assert ip !in Held(w'.pods);
    }
  }

  lemma SameHeld(w: World, w': World, initial: set<string>)
    requires Conserved(w, initial) && w'.pods.Keys == w.pods.Keys
    requires forall id | id in w.pods :: w'.pods[id].ip == w.pods[id].ip
    requires w'.pool == w.pool && w'.lost == w.lost && w'.provider == w.provider
    ensures Conserved(w', initial)
  {
    assert Held(w'.pods) == Held(w.pods);
  }

  /** One handler keeps the addresses conserved exactly when it is honest. */
  lemma StepConserves(w: World, initial: set<string>, e: Event)
    requires Conserved(w, initial) && Possible(w, e)
    ensures Conserved(Step(w, e), initial) <==> Honest(w, e)
  {
    match e
    case Create(uid, fate, id) => CreateConserves(w, initial, uid, fate, id);
    case Remove(id, destroyed) => RemoveConserves(w, initial, id, destroyed);
    case Boot(id, fate) => SameHeld(w, Step(w, e), initial);
    case Stop(id, listed) => SameHeld(w, Step(w, e), initial);
  }

  // ---------- Live VMs ----------

  /** No free address belongs to a live VM, and a pod's VM is live exactly when it is booted. */
  ghost predicate LiveRight(w: World) {
    && (forall x | x in w.pool :: x !in w.live)
    && (forall id | id in w.pods :: w.pods[id].ip in w.live <==> w.pods[id].booted)
  }

  /** A boot that fails for an image pod fails before there is a VM, and one that succeeds gets the pod's address. */
  predicate CleanBoot(w: World, e: Event) {
    e.Boot? && NeedsBoot(w, e.id) ==>
      match e.fate
      case NotProvisioned => true
      case Unusable => false
      case Up(ip) => ip == w.pods[e.id].ip
  }

  /** One honest handler keeps liveness right exactly when its boot is clean. */
  lemma StepKeepsLiveRight(w: World, initial: set<string>, e: Event)
    requires Conserved(w, initial) && LiveRight(w) && Possible(w, e) && Honest(w, e)
    ensures LiveRight(Step(w, e)) <==> CleanBoot(w, e)
  {
    match e
    case Create(uid, fate, id) => CreateKeepsLive(w, initial, uid, fate, id);
    case Boot(id, fate) => BootKeepsLive(w, initial, id, fate);
    case Stop(_, _) =>
    case Remove(id, destroyed) => RemoveKeepsLive(w, initial, id, destroyed);
  }

  /** No pod has a free address. */
  lemma Apart(w: World, initial: set<string>)
    requires Conserved(w, initial)
    ensures forall x, id | x in w.pool && id in w.pods :: w.pods[id].ip != x
  {
    forall x, id | x in w.pool && id in w.pods ensures w.pods[id].ip != x {
      assert x in Members(w.pool) && w.pods[id].ip in Held(w.pods);
    }
  }

  lemma CreateKeepsLive(w: World, initial: set<string>, uid: string, fate: Fate, id: string)
    requires Conserved(w, initial) && LiveRight(w) && w.pool != [] && Honest(w, Create(uid, fate, id))
    ensures LiveRight(CreateStep(w, uid, fate, id))
  {
    Apart(w, initial);
    assert w.pool[0] in w.pool;
    assert forall x | x in w.pool[1..] :: x in w.pool && x != w.pool[0];
  }

  lemma BootKeepsLive(w: World, initial: set<string>, id: string, fate: Fate)
    requires Conserved(w, initial) && LiveRight(w)
    ensures LiveRight(BootStep(w, id, fate)) <==> CleanBoot(w, Boot(id, fate))
  {
    Apart(w, initial);
    if NeedsBoot(w, id) {
      var w' := BootStep(w, id, fate);
      assert w'.pods[id].ip == w.pods[id].ip && w.pods[id].ip !in w.live;
    }
  }

  lemma RemoveKeepsLive(w: World, initial: set<string>, id: string, destroyed: bool)
    requires Conserved(w, initial) && LiveRight(w)
    ensures LiveRight(RemoveStep(w, id, destroyed))
  {
    Apart(w, initial);
  }

  // ---------- Runs ----------

  /** Every event finds a non-empty pool where it needs one, and is honest. */
  ghost predicate HonestRun(w: World, es: seq<Event>)
    decreases |es|
  {
    es == [] || (Possible(w, es[0]) && Honest(w, es[0]) && HonestRun(Step(w, es[0]), es[1..]))
  }

  ghost function Run(w: World, es: seq<Event>): World
    requires HonestRun(w, es)
    decreases |es|
  {
    if es == [] then w else Run(Step(w, es[0]), es[1..])
  }

  lemma {:induction false} RunKeepsProvider(w: World, es: seq<Event>)
    requires HonestRun(w, es)
    ensures Run(w, es).provider == w.provider
    decreases |es|
  {
    if es != [] { RunKeepsProvider(Step(w, es[0]), es[1..]); }
  }

  /** Pods appear only under the first free address, or with the fake provider under the random id. */
  lemma {:induction false} RunNames(w: World, es: seq<Event>, c: char)
    requires HonestRun(w, es) && w.provider == Fake
    requires (forall id | id in w.pods :: c !in id) && forall e | e in es && e.Create? :: c !in e.id
    ensures forall id | id in Run(w, es).pods :: c !in id
    decreases |es|
  {
    if es != [] {
      assert es[0] in es;
      RunNames(Step(w, es[0]), es[1..], c);
    }
  }

  lemma {:induction false} RunAppend(w: World, es: seq<Event>, e: Event)
    requires HonestRun(w, es) && Possible(Run(w, es), e) && Honest(Run(w, es), e)
    ensures HonestRun(w, es + [e]) && Run(w, es + [e]) == Step(Run(w, es), e)
    decreases |es|
  {
    if es == [] {
      assert es + [e] == [e] && [e][1..] == [];
    } else {
      assert (es + [e])[1..] == es[1..] + [e];
      RunAppend(Step(w, es[0]), es[1..], e);
    }
  }

  ghost predicate CleanRun(w: World, es: seq<Event>)
    requires HonestRun(w, es)
    decreases |es|
  {
    es == [] || (CleanBoot(w, es[0]) && CleanRun(Step(w, es[0]), es[1..]))
  }

  /** Conservation over every run of handlers, and with clean boots the liveness of exactly the booted pods. */
  lemma {:induction false} RunConserves(w: World, initial: set<string>, es: seq<Event>)
    requires Conserved(w, initial) && HonestRun(w, es)
    ensures Conserved(Run(w, es), initial)
    ensures LiveRight(w) && CleanRun(w, es) ==> LiveRight(Run(w, es))
    decreases |es|
  {
    if es != [] {
      StepConserves(w, initial, es[0]);
      if LiveRight(w) && CleanBoot(w, es[0]) { StepKeepsLiveRight(w, initial, es[0]); }
      RunConserves(Step(w, es[0]), initial, es[1..]);
    }
  }

  // ---------- The history of a pod ----------

  /** The event is a create that lists a pod under the id. */
  predicate Makes(w: World, e: Event, id: string) {
    && e.Create? && w.pool != [] && (w.provider == Cloud(false) ==> e.fate.Up?)
    && id == if w.provider.Fake? then e.id else w.pool[0]
  }

  /** The event is a stop of the pod whose client lists its containers. */
  predicate Stops(e: Event, id: string) { e.Stop? && e.id == id && e.listed }

  /** The event is a removal of a pod whose VM, if it is booted, is destroyed. */
  predicate Removes(w: World, e: Event, id: string) {
    e.Remove? && e.id == id && id in w.pods && (w.pods[id].booted ==> e.destroyed)
  }

  /** What one event does to what is listed under an id: a create lists a ready pod with the uid of its request; only a
      removal takes a pod away, which gives its address back; nothing changes its address or uid; only a stop changes
      ready, only a boot that succeeds changes booted. */
  lemma StepPod(w: World, e: Event, id: string)
    requires Possible(w, e)
    ensures var w' := Step(w, e);
            if Makes(w, e, id) then id in w'.pods && w'.pods[id].uid == e.uid && w'.pods[id].ready
            else if Removes(w, e, id) then id !in w'.pods && w'.pool == w.pool + [w.pods[id].ip]
            else
              && (id in w'.pods <==> id in w.pods)
              && (id in w.pods ==>
                    var p, p' := w.pods[id], w'.pods[id];
                    && p'.ip == p.ip && p'.uid == p.uid
                    && (p'.ready <==> p.ready && !Stops(e, id))
                    && (p'.booted <==> p.booted || (e.Boot? && e.id == id && NeedsBoot(w, id) && e.fate.Up?)))
  {
  }

  /** A removal that is not possible, for want of the pod or because its VM is not destroyed, changes nothing. */
  lemma FailedRemoval(w: World, id: string, destroyed: bool)
    requires !Removes(w, Remove(id, destroyed), id)
    ensures Step(w, Remove(id, destroyed)) == w
  {
  }

  /** The world before event k of a run. */
  ghost function Before(w: World, es: seq<Event>, k: nat): World
    requires HonestRun(w, es) && k <= |es|
    decreases k
  {
    if k == 0 then w else Before(Step(w, es[0]), es[1..], k - 1)
  }

  /** Event k is the last of the run that lists a pod under the id. */
  ghost predicate LastMade(w: World, es: seq<Event>, k: nat, id: string)
    requires HonestRun(w, es)
  {
    && k < |es| && Makes(Before(w, es, k), es[k], id)
    && forall l | k < l < |es| :: !Makes(Before(w, es, l), es[l], id)
  }

  ghost predicate NeverMade(w: World, es: seq<Event>, id: string)
    requires HonestRun(w, es)
  {
    forall l | 0 <= l < |es| :: !Makes(Before(w, es, l), es[l], id)
  }

  predicate StoppedSince(es: seq<Event>, k: nat, id: string) { exists l :: k <= l < |es| && Stops(es[l], id) }

  /** What is listed under an id after a run has the uid of the last create that listed a pod under it, and is ready
      exactly when no stop of it came since; or it was there before, and the same holds since then. */
  lemma {:induction false} PodHistory(w: World, es: seq<Event>, id: string)
    requires HonestRun(w, es) && id in Run(w, es).pods
    ensures var p := Run(w, es).pods[id];
            || (exists k: nat ::
                  LastMade(w, es, k, id) && p.uid == es[k].uid && (p.ready <==> !StoppedSince(es, k + 1, id)))
            || (NeverMade(w, es, id) && id in w.pods && p.uid == w.pods[id].uid
                && (p.ready <==> w.pods[id].ready && !StoppedSince(es, 0, id)))
    decreases |es|
  {
    if es != [] {
      var w1, rest, p := Step(w, es[0]), es[1..], Run(w, es).pods[id];
      PodHistory(w1, rest, id);
      StepPod(w, es[0], id);
      Unshifted(w, es, id);
      if k: nat :| LastMade(w1, rest, k, id) && p.uid == rest[k].uid && (p.ready <==> !StoppedSince(rest, k + 1, id)) {
        assert LastMade(w, es, k + 1, id);
      } else if Makes(w, es[0], id) {
        assert LastMade(w, es, 0, id);
      } else {
        forall l | 0 <= l < |es| ensures !Makes(Before(w, es, l), es[l], id) {
          if l > 0 { assert !Makes(Before(w1, rest, l - 1), rest[l - 1], id); }
        }
      }
    }
  }

  /** The events behind the first are those of the rest of the run. */
  lemma Unshifted(w: World, es: seq<Event>, id: string)
    requires HonestRun(w, es) && es != []
    ensures forall l | 0 < l < |es| ::
              Before(w, es, l) == Before(Step(w, es[0]), es[1..], l - 1) && es[l] == es[1..][l - 1]
    ensures forall k: nat :: StoppedSince(es, k + 1, id) <==> StoppedSince(es[1..], k, id)
    ensures StoppedSince(es, 0, id) <==> Stops(es[0], id) || StoppedSince(es[1..], 0, id)
  {
    var rest := es[1..];
    forall k: nat ensures StoppedSince(es, k + 1, id) <==> StoppedSince(rest, k, id) {
      if StoppedSince(es, k + 1, id) {
        var l :| k + 1 <= l < |es| && Stops(es[l], id);
        assert Stops(rest[l - 1], id);
      }
      if StoppedSince(rest, k, id) {
        var l :| k <= l < |rest| && Stops(rest[l], id);
        assert Stops(es[l + 1], id);
      }
    }
    assert StoppedSince(es, 0, id) <==> Stops(es[0], id) || StoppedSince(es, 1, id);
  }

  /** The fake provider never loses an address: free and held are always the whole pool. */
  lemma {:induction false} FakeNeverLoses(w: World, initial: set<string>, es: seq<Event>)
    requires Conserved(w, initial) && HonestRun(w, es) && w.provider == Fake && w.lost == {}
    ensures Run(w, es).lost == {} && Members(Run(w, es).pool) + Held(Run(w, es).pods) == initial
    decreases |es|
  {
    if es != [] {
      StepConserves(w, initial, es[0]);
      FakeNeverLoses(Step(w, es[0]), initial, es[1..]);
    }
  }

  // ---------- Import ----------

  /** What a running instance answers to ListInstances: no connection (which ends the import with an error),
      no pod address or no stored config (which skips the instance), or both. */
  datatype Answer = Unreachable | NoPodIp | NoConfig | Config(podIp: string, uid: string, labels: map<string, string>)

  datatype Instance = Instance(addr: string, answer: Answer)

  /** The addresses taken out of the pool before the import ends. */
  function Claimed(instances: seq<Instance>): set<string> {
    if instances == [] || instances[0].answer.Unreachable? then {}
    else (if instances[0].answer.Config? then {instances[0].answer.podIp} else {}) + Claimed(instances[1..])
  }

  function PoolAfter(pool: seq<string>, instances: seq<Instance>): seq<string>
    decreases |instances|
  {
    if instances == [] || instances[0].answer.Unreachable? then pool
    else
      var first := instances[0].answer;
      PoolAfter(if first.Config? then Without(pool, first.podIp) else pool, instances[1..])
  }

  /** The pods listed, by id; None when an instance could not be reached. */
  function Collect(pods: map<string, Pod>, instances: seq<Instance>): Option<map<string, Pod>>
    decreases |instances|
  {
    if instances == [] then Some(pods)
    else match instances[0].answer
      case Unreachable => None
      case Config(ip, uid, _) => Collect(pods[ip := Pod(ip, uid, true, true)], instances[1..])
      case _ => Collect(pods, instances[1..])
  }

  /** A new manager over a full pool, after importSandboxes. listed: the cloud lists its instances at all. */
  function Import(provider: Provider, pool: seq<string>, listed: bool, instances: seq<Instance>): World {
    var live := set i | i in instances :: i.addr;
    if !listed then World(provider, pool, map[], {}, live)
    else match Collect(map[], instances)
      case None => World(provider, PoolAfter(pool, instances), map[], Members(pool) * Claimed(instances), live)
      case Some(pods) => World(provider, PoolAfter(pool, instances), pods, {}, live)
  }

  lemma {:induction false} PoolAfterMembers(pool: seq<string>, instances: seq<Instance>)
    requires NoDup(pool)
    ensures NoDup(PoolAfter(pool, instances))
            && Members(PoolAfter(pool, instances)) == Members(pool) - Claimed(instances)
    decreases |instances|
  {
    if instances != [] && !instances[0].answer.Unreachable? {
      if instances[0].answer.Config? {
        var ip := instances[0].answer.podIp;
        WithoutNoDup(pool, ip);
        WithoutMembers(pool, ip);
        assert Members(Without(pool, ip)) == Members(pool) - {ip};
        PoolAfterMembers(Without(pool, ip), instances[1..]);
      } else {
        PoolAfterMembers(pool, instances[1..]);
      }
    }
  }

  /** Every pod is booted and known by the address it holds. */
  ghost predicate Named(pods: map<string, Pod>) { forall id | id in pods :: pods[id].ip == id && pods[id].booted }

  lemma {:induction false} CollectHolds(pods: map<string, Pod>, instances: seq<Instance>)
    requires Named(pods)
    ensures var r := Collect(pods, instances);
            r.Some? ==> Named(r.value) && r.value.Keys == pods.Keys + Claimed(instances)
    ensures Collect(pods, instances).None? <==> exists i :: 0 <= i < |instances| && instances[i].answer.Unreachable?
    decreases |instances|
  {
    if instances != [] {
      var rest := instances[1..];
      assert forall i | 0 < i < |instances| :: instances[i] == rest[i - 1];
      match instances[0].answer
      case Unreachable =>
      case Config(ip, uid, _) => CollectHolds(pods[ip := Pod(ip, uid, true, true)], rest);
      case _ => CollectHolds(pods, rest);
      if i :| 0 <= i < |rest| && rest[i].answer.Unreachable? { assert instances[i + 1].answer.Unreachable?; }
    }
  }

  lemma NamedHeld(pods: map<string, Pod>)
    requires Named(pods)
    ensures Held(pods) == pods.Keys
  {
    forall x ensures x in Held(pods) <==> x in pods.Keys {
      if x in pods { assert pods[x].ip == x; }
    }
  }

  /** Every instance reports the address it has, and that is an address of the pool. */
  predicate FromPool(pool: seq<string>, instances: seq<Instance>) {
    forall i | i in instances :: i.addr in pool && (i.answer.Config? ==> i.answer.podIp == i.addr)
  }

  lemma {:induction false} ClaimedFrom(instances: seq<Instance>, x: string)
    ensures x in Claimed(instances) ==> exists i :: i in instances && i.answer.Config? && i.answer.podIp == x
    ensures (forall i | i in instances :: i.answer.Config?) ==>
            forall i | i in instances :: i.answer.podIp in Claimed(instances)
  {
    if instances != [] && !instances[0].answer.Unreachable? {
      assert instances == [instances[0]] + instances[1..];
      ClaimedFrom(instances[1..], x);
      if x in Claimed(instances[1..]) {
        var i :| i in instances[1..] && i.answer.Config? && i.answer.podIp == x;
        assert i in instances;
      }
    }
  }

  /** Every imported pod is ready and booted, with the address it is listed under and the uid of an instance that
      answered with that address. */
  lemma {:induction false} CollectedFrom(pods: map<string, Pod>, instances: seq<Instance>, id: string)
    requires Collect(pods, instances).Some? && id in Collect(pods, instances).value
    ensures var p := Collect(pods, instances).value[id];
            || (id in pods && p == pods[id] && forall i | i in instances && i.answer.Config? :: i.answer.podIp != id)
            || exists i :: i in instances && i.answer.Config? && i.answer.podIp == id
                           && p == Pod(id, i.answer.uid, true, true)
    decreases |instances|
  {
    if instances != [] {
      var first := instances[0].answer;
      assert instances == [instances[0]] + instances[1..];
      CollectedFrom(if first.Config? then pods[first.podIp := Pod(first.podIp, first.uid, true, true)] else pods,
                    instances[1..], id);
    }
  }

  lemma ImportedPods(provider: Provider, pool: seq<string>, listed: bool, instances: seq<Instance>, id: string)
    requires id in Import(provider, pool, listed, instances).pods
    ensures var p := Import(provider, pool, listed, instances).pods[id];
            exists i :: i in instances && i.answer.Config? && i.answer.podIp == id
                        && p == Pod(id, i.answer.uid, true, true)
  {
    CollectedFrom(map[], instances, id);
  }

  /** Import conserves the addresses whatever the instances answer: those it took before an error are lost. */
  lemma ImportConserves(provider: Provider, pool: seq<string>, listed: bool, instances: seq<Instance>)
    requires NoDup(pool) && FromPool(pool, instances)
    ensures Conserved(Import(provider, pool, listed, instances), Members(pool))
  {
    PoolAfterMembers(pool, instances);
    assert Held(map[]) == {};
    CollectHolds(map[], instances);
    forall x | x in Claimed(instances) ensures x in Members(pool) { ClaimedFrom(instances, x); }
    match Collect(map[], instances)
    case None =>
    case Some(pods) =>
      NamedHeld(pods);
      assert pods.Keys == Claimed(instances);
  }

  lemma SilentIsNotClaimed(pool: seq<string>, instances: seq<Instance>, i: Instance)
    requires FromPool(pool, instances) && i in instances && !i.answer.Config?
    requires forall i, j | 0 <= i < j < |instances| :: instances[i].addr != instances[j].addr
    ensures i.addr !in Claimed(instances)
  {
    forall x | x in Claimed(instances) ensures x != i.addr {
      ClaimedFrom(instances, x);
      var j :| j in instances && j.answer.Config? && j.answer.podIp == x;
      var a :| 0 <= a < |instances| && instances[a] == i;
      var b :| 0 <= b < |instances| && instances[b] == j;
      assert a != b;
    }
  }

  /** After import no free address belongs to a live VM exactly when every instance was listed and answered: a VM
      that was unreachable or skipped keeps running while its address waits in the pool for the next pod. */
  lemma ImportLive(provider: Provider, pool: seq<string>, listed: bool, instances: seq<Instance>)
    requires NoDup(pool) && FromPool(pool, instances)
    requires forall i, j | 0 <= i < j < |instances| :: instances[i].addr != instances[j].addr
    ensures LiveRight(Import(provider, pool, listed, instances))
            <==> forall i | i in instances :: listed && i.answer.Config?
  {
    var w := Import(provider, pool, listed, instances);
    PoolAfterMembers(pool, instances);
    CollectHolds(map[], instances);
    if forall i | i in instances :: listed && i.answer.Config? {
      if listed { AllAnsweredIsLive(provider, pool, instances); }
    } else if !listed {
      var i :| i in instances;
      assert i.addr in w.pool && i.addr in w.live;
    } else {
      var i :| i in instances && !i.answer.Config?;
      SilentIsNotClaimed(pool, instances, i);
      assert i.addr in Members(pool);
      assert i.addr in Members(PoolAfter(pool, instances));
      assert w.pool == PoolAfter(pool, instances) && i.addr in w.live;
    }
  }

  lemma AllAnsweredIsLive(provider: Provider, pool: seq<string>, instances: seq<Instance>)
    requires NoDup(pool) && FromPool(pool, instances) && forall i | i in instances :: i.answer.Config?
    ensures LiveRight(Import(provider, pool, true, instances))
  {
    var w := Import(provider, pool, true, instances);
    PoolAfterMembers(pool, instances);
    CollectHolds(map[], instances);
    forall x | x in w.live ensures x in Claimed(instances) {
      var i :| i in instances && i.addr == x;
      ClaimedFrom(instances, x);
    }
    assert forall x | x in w.pool :: x in Members(PoolAfter(pool, instances));
    assert Collect(map[], instances).Some?;
    forall id | id in w.pods ensures w.pods[id].ip in w.live {
      ClaimedFrom(instances, id);
      var i :| i in instances && i.answer.Config? && i.answer.podIp == id;
      assert i.addr in w.live;
    }
  }
}
