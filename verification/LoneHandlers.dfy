/** What a handler that runs alone makes of the pool, vmMap and the pods: its step in the one-step model. */
module LoneHandlers {
  import opened Wrappers
  import opened EbsDevices
  import opened Protocol
  import opened OnceOnly
  import opened ProtocolRuns
  import opened LateDeletes
  import opened Handlers
  import S = Sandboxes

  /** Nobody else changes the shared data: the accesses of log lead from sh to sh'. */
  ghost predicate Alone(sh: Shared, log: seq<Entry>, sh': Shared)
    decreases |log|
  {
    if log == [] then sh' == sh else log[0].before == sh && Alone(log[0].after, log[1..], sh')
  }

  /** When it was the only one to run, its accesses lead from the shared data then to the shared data now. */
  lemma {:induction false} AloneOf(ss: seq<State>, cs: seq<Choice>, k: nat, j: nat, t: nat)
    requires Trace(ss, cs) && k <= j <= |cs| && t < |ss[k].threads| && ss[j].shared.panicked.None?
    requires forall l | k <= l < j :: cs[l].Run? && cs[l].thread == t
    ensures Alone(ss[k].shared, Log(ss, cs, k, j, t), ss[j].shared)
    decreases j - k
  {
    if k < j {
      LivesBefore(ss, cs, k + 1, j);
      OneCourse(ss, cs, k, t);
      AloneOf(ss, cs, k + 1, j, t);
      LogStep(ss, cs, k, j, t);
    }
  }

  // ---------- What a handler that runs alone makes of the shared data ----------

  /** vmMap lists every pod under its own address. */
  ghost predicate Keyed(sh: Shared) {
    forall id | id in sh.vmMap :: sh.vmMap[id] < |sh.pods| && sh.pods[sh.vmMap[id]].addr == id
  }

  lemma StepKeyed(s: State, ch: Choice)
    requires Enabled(s, ch) && Keyed(s.shared)
    ensures Keyed(Next(s, ch).shared)
  {
    if ch.Run? && s.threads[ch.thread].code.Do? {
      AccessKeyed(s.shared, ch.thread, s.threads[ch.thread].code.action, ch.oracle);
    }
  }

  lemma AccessKeyed(sh: Shared, t: nat, a: Action, o: Oracle)
    requires WellFormed(sh) && Refs(sh, a) && Keyed(sh)
    ensures Keyed(Exec(sh, t, a, o).0)
  {
    var sh' := Exec(sh, t, a, o).0;
    AddressesKept(sh, t, a, o);
    ExecEffect(sh, t, a, o);
    EntriesKeyed(sh, a, sh');
  }

  ghost predicate SameAddresses(sh: Shared, sh': Shared) {
    |sh.pods| <= |sh'.pods| && forall r | 0 <= r < |sh.pods| :: sh'.pods[r].addr == sh.pods[r].addr
  }

  lemma AddressesKept(sh: Shared, t: nat, a: Action, o: Oracle)
    requires WellFormed(sh) && Refs(sh, a)
    ensures SameAddresses(sh, Exec(sh, t, a, o).0)
  {
    ExecChanges(sh, t, a, o);
  }

  lemma EntriesKeyed(sh: Shared, a: Action, sh': Shared)
    requires Keyed(sh) && Refs(sh, a) && PoolAndMap(sh, a, sh') && SameAddresses(sh, sh')
    ensures Keyed(sh')
  {
  }

  lemma OneKeyed(ss: seq<State>, cs: seq<Choice>, k: nat)
    requires Trace(ss, cs) && k < |cs| && Keyed(ss[k].shared)
    ensures Keyed(ss[k + 1].shared)
  {
    assert Follows(ss, cs, k);
    StepKeyed(ss[k], cs[k]);
  }

  lemma {:induction false} KeyedInvariant(ss: seq<State>, cs: seq<Choice>, i: nat)
    requires Trace(ss, cs) && i < |ss|
    ensures Keyed(ss[i].shared)
    decreases i
  {
    if i > 0 {
      KeyedInvariant(ss, cs, i - 1);
      OneKeyed(ss, cs, i - 1);
    }
  }

  function PodView(p: Pod): S.Pod { S.Pod(p.addr, "", p.ready, p.booted) }

  /** The shared data as the one-step model sees it, without the uids and the books on lost and live addresses, which
      it does not hold. */
  ghost function View(sh: Shared): S.World
    requires Keyed(sh)
  {
    S.World(S.Cloud(sh.imagePod), sh.pool, map id | id in sh.vmMap :: PodView(sh.pods[sh.vmMap[id]]), {}, {})
  }

  /** w agrees with sh on the provider, the pool, vmMap and its pods. */
  ghost predicate Shows(sh: Shared, w: S.World) {
    Keyed(sh) && View(sh) == w.(lost := {}, live := {})
  }

  /** Whether access n of the log was answered with yes. */
  predicate Yes(log: seq<Entry>, n: nat) { n < |log| && log[n].oracle.ok }

  /** What comes of the boot whose Provision is access n. */
  function FateAt(log: seq<Entry>, n: nat, ip: string): S.Fate { if Yes(log, n) then S.Up(ip) else S.NotProvisioned }

  /** What the request does to the shared data, in the terms of the one-step model. */
  ghost predicate Effect(req: Request, log: seq<Entry>, sh: Shared, sh': Shared)
    requires Keyed(sh)
  {
    match req
    case RunPodSandbox(volumes) =>
      && sh.pool != [] && Shows(sh', S.CreateStep(View(sh), "", FateAt(log, 2, sh.pool[0]), ""))
      && (sh.imagePod || Yes(log, 2) ==>
            |sh'.pods| == |sh.pods| + 1 && NewPodMade(sh, sh', sh'.pods[|sh.pods|], volumes))
    case StopPodSandbox(id) =>
      var listed := id in sh.vmMap && sh.pods[sh.vmMap[id]].client.Some? && Yes(log, 1);
      && Shows(sh', S.StopStep(View(sh), id, listed))
      && (listed ==> NoVolumes(sh', sh.pods[sh.vmMap[id]].data))
    case RemovePodSandbox(id) =>
      && Shows(sh', S.RemoveStep(View(sh), id, Yes(log, 1)))
      && (id in sh.vmMap && id !in sh'.vmMap ==> WithoutClient(sh', sh.vmMap[id]))
    case CreateContainer(id, _) =>
      var fate := if Yes(log, 0) then FateAt(log, 2, id) else S.NotProvisioned;
      && Shows(sh', S.BootStep(View(sh), id, fate))
      && (S.NeedsBoot(View(sh), id) && fate.Up? ==> BootInstalled(sh, sh', sh.vmMap[id]))
    case _ => sh' == sh
  }

  ghost predicate NoVolumes(sh: Shared, d: nat) { d < |sh.datas| && sh.datas[d].volumes == [] }

  ghost predicate WithoutClient(sh: Shared, r: nat) { r < |sh.pods| && sh.pods[r].client.None? }

  /** Pod p has a client and a providerData of its own, with the volumes; the latter is that of a VM if p is booted. */
  ghost predicate NewPodMade(sh: Shared, sh': Shared, p: Pod, volumes: seq<Volume>) {
    && p.client == Some(sh.clients) && p.data == |sh.datas| < |sh'.datas| && p.listed
    && sh'.datas[p.data].volumes == volumes && sh'.datas[p.data].instance == p.booted == !sh.imagePod
  }

  /** Pod r now has the client and the providerData of a new VM, with the volumes of its former providerData. */
  ghost predicate BootInstalled(sh: Shared, sh': Shared, r: nat) {
    && r < |sh.pods| && r < |sh'.pods| && sh.pods[r].data < |sh.datas| < |sh'.datas|
    && sh'.pods[r].client == Some(sh.clients) && sh'.pods[r].data == |sh.datas|
    && sh'.datas[|sh.datas|].volumes == sh.datas[sh.pods[r].data].volumes && sh'.datas[|sh.datas|].instance
  }

  lemma {:induction false} AloneAt(sh: Shared, log: seq<Entry>, sh': Shared, n: nat)
    requires Alone(sh, log, sh') && n < |log|
    ensures log[n].before == if n == 0 then sh else log[n - 1].after
    ensures n + 1 == |log| ==> sh' == log[n].after
    decreases |log|
  {
    if n > 0 { AloneAt(log[0].after, log[1..], sh', n - 1); }
  }

  lemma PodListed(sh: Shared, sh': Shared, p: Pod)
    requires Keyed(sh) && sh'.pods == sh.pods + [p] && sh'.vmMap == sh.vmMap[p.addr := |sh.pods|]
    ensures Keyed(sh') && View(sh').pods == View(sh).pods[p.addr := PodView(p)]
  {
    forall id | id in sh'.vmMap ensures sh'.vmMap[id] < |sh'.pods| && sh'.pods[sh'.vmMap[id]].addr == id {}
  }

  lemma PodChanged(sh: Shared, sh': Shared, id: string, p: Pod)
    requires Keyed(sh) && id in sh.vmMap && p.addr == id
    requires sh'.pods == sh.pods[sh.vmMap[id] := p] && sh'.vmMap == sh.vmMap
    ensures Keyed(sh') && View(sh').pods == View(sh).pods[id := PodView(p)]
  {
  }

  /** Accesses that change nothing but allocators. */
  predicate Quiet(a: Action) {
    || IsAttach(a) || a.MountNext? || a.NeedMount? || a.ContBegin? || a.PreCreate? || a.Lookup? || a.StatusBody?
    || a.CallBody? || a.CopyMap? || a.ListNext? || a.Visit? || (a.AttachNext? && a.rest != [])
  }

  lemma QuietAt(t: nat, next: Option<Action>, log: seq<Entry>, n: nat)
    requires Course(t, next, log) && n < |log| && Quiet(log[n].action)
    ensures OnlyAllocators(log[n].before, log[n].after)
    ensures !IsAttach(log[n].action) ==> log[n].after == log[n].before
  {
    var a := log[n].action;
    if IsAttach(a) { AttachAt(t, next, log, n); }
    else if a.AttachNext? { AttachNextAt(t, next, log, n); }
    else { ReadAt(t, next, log, n); }
  }

  lemma ReadAt(t: nat, next: Option<Action>, log: seq<Entry>, n: nat)
    requires Course(t, next, log) && n < |log|
    requires var a := log[n].action; !IsRun(a) && !IsBoot(a) && !IsAttach(a) && !IsStop(a) && !IsRemove(a)
    ensures log[n].after == log[n].before
  {
    MadeAt(t, log, n);
    var e := log[n];
    ReadOnly(e.before, e.action, e.oracle);
  }

  /** Over quiet accesses k..n only allocators change. */
  lemma {:induction false} QuietBetween(t: nat, next: Option<Action>, log: seq<Entry>, sh: Shared, sh': Shared,
                                        k: nat, n: nat)
    requires Course(t, next, log) && Alone(sh, log, sh') && k <= n < |log|
    requires forall m | k <= m < n :: Quiet(log[m].action)
    ensures OnlyAllocators(log[k].before, log[n].before)
    decreases n
  {
    if k < n {
      QuietBetween(t, next, log, sh, sh', k, n - 1);
      QuietAt(t, next, log, n - 1);
      AloneAt(sh, log, sh', n);
    }
  }

  lemma TurnQuiet(a: Action, turn: seq<Entry>, m: nat)
    requires a.AttachNext? && a.rest != [] && BootTurn(a, turn) && m < |turn|
    ensures Quiet(turn[m].action)
  {
  }

  lemma {:induction false} BootQuiet(d: nat, c: nat, rest: seq<Volume>, job: Job, log: seq<Entry>, m: nat)
    requires BootAttaches(d, c, rest, job, log) && m < |log|
    ensures Quiet(log[m].action)
    decreases |log|
  {
    var n: nat :| 0 < n <= |log| && BootTurn(AttachNext(d, c, rest, job), log[..n])
                  && BootAttaches(d, c, rest[1..], job, log[n..]);
    if m < n {
      assert log[m] == log[..n][m];
      TurnQuiet(AttachNext(d, c, rest, job), log[..n], m);
    } else {
      BootQuiet(d, c, rest[1..], job, log[n..], m - n);
      assert log[m] == log[n..][m - n];
    }
  }

  /** The accesses of createContainer behind its preCreateContainer. */
  predicate InCont(a: Action) { a.ContBegin? || a.MountNext? || a.NeedMount? || (IsAttach(a) && a.loop.MountLoop?) }

  lemma ContGoesOn(t: nat, next: Option<Action>, log: seq<Entry>, n: nat)
    requires Course(t, next, log) && n + 1 < |log| && InCont(log[n].action)
    ensures InCont(log[n + 1].action)
  {
    if IsAttach(log[n].action) { AttachAt(t, next, log, n); } else { MountAt(t, next, log, n); }
  }

  lemma {:induction false} ContQuiet(t: nat, next: Option<Action>, log: seq<Entry>, k: nat, m: nat)
    requires Course(t, next, log) && k <= m < |log| && InCont(log[k].action)
    ensures InCont(log[m].action)
    decreases m
  {
    if k < m {
      ContQuiet(t, next, log, k, m - 1);
      ContGoesOn(t, next, log, m - 1);
    }
  }

  // ---------- The requests ----------

  lemma {:induction false} StopLoopAlone(t: nat, next: Option<Action>, log: seq<Entry>, sh: Shared, sh': Shared, n: nat)
    requires Course(t, next, log) && Alone(sh, log, sh') && 2 <= n < |log| && log[2].before == sh
    requires forall m | 2 <= m < n :: log[m].action.StopLoop? && log[m].action.left > 0
    ensures log[n].before == sh
    decreases n
  {
    if n > 2 {
      StopLoopAlone(t, next, log, sh, sh', n - 1);
      StopLoopAt(t, next, log, n - 1);
      AloneAt(sh, log, sh', n);
    }
  }

  lemma StopAlone(t: nat, id: string, log: seq<Entry>, sh: Shared, sh': Shared)
    requires Course(t, Some(Lookup(id, ForStop)), log) && Alone(sh, log, sh') && Keyed(sh)
    ensures Effect(StopPodSandbox(id), log, sh, sh')
  {
    var next := Some(Lookup(id, ForStop));
    StopRuns(t, id, log);
    LookupAt(t, next, log);
    AloneAt(sh, log, sh', 0);
    if id in sh.vmMap {
      AloneAt(sh, log, sh', 1);
      StopBeginAt(t, next, log, 1);
      var r := sh.vmMap[id];
      if sh.pods[r].client.Some? && Yes(log, 1) { StopEndsAlone(t, id, r, log, sh, sh'); }
    }
  }

  lemma StopEndsAlone(t: nat, id: string, r: nat, log: seq<Entry>, sh: Shared, sh': Shared)
    requires Course(t, Some(Lookup(id, ForStop)), log) && Alone(sh, log, sh') && Keyed(sh) && |log| > 2
    requires id in sh.vmMap && sh.vmMap[id] == r && log[1].after == sh
    requires exists c: nat, left: nat :: StopLoopCourse(r, c, left, log[2..])
    ensures Shows(sh', S.StopStep(View(sh), id, true)) && NoVolumes(sh', sh.pods[r].data)
  {
    var next := Some(Lookup(id, ForStop));
    var c: nat, left: nat :| StopLoopCourse(r, c, left, log[2..]);
    forall n | 2 <= n <= left + 2 ensures log[n].action == StopLoop(r, c, left + 2 - n) {
      assert log[n] == log[2..][n - 2];
    }
    AloneAt(sh, log, sh', 2);
    StopLoopAlone(t, next, log, sh, sh', left + 2);
    StopLoopAt(t, next, log, left + 2);
    AloneAt(sh, log, sh', left + 3);
    DetachAllAt(t, next, log, left + 3);
    PodChanged(sh, sh', id, sh.pods[r].(ready := false));
  }

  lemma RemoveAlone(t: nat, id: string, log: seq<Entry>, sh: Shared, sh': Shared)
    requires Course(t, Some(Lookup(id, ForRemove)), log) && Alone(sh, log, sh') && Keyed(sh)
    ensures Effect(RemovePodSandbox(id), log, sh, sh')
  {
    var next := Some(Lookup(id, ForRemove));
    RemoveRuns(t, id, log);
    LookupAt(t, next, log);
    AloneAt(sh, log, sh', 0);
    if id in sh.vmMap {
      AloneAt(sh, log, sh', 1);
      RemoveAt(t, next, log, 1);
      if |log| > 2 { RemovalEndsAlone(t, id, log, sh, sh'); }
    }
  }

  lemma RemovalEndsAlone(t: nat, id: string, log: seq<Entry>, sh: Shared, sh': Shared)
    requires Course(t, Some(Lookup(id, ForRemove)), log) && Alone(sh, log, sh') && Keyed(sh)
    requires |log| == 4 && id in sh.vmMap
    requires var r := sh.vmMap[id];
             && log[1].after == WithPod(sh, r, sh.pods[r].(client := None))
             && log[2].action == Release(r) && log[3].action.Delete? && log[3].action.pod == r
    ensures Shows(sh', View(sh).(pods := View(sh).pods - {id}, pool := sh.pool + [id]))
    ensures id !in sh'.vmMap && WithoutClient(sh', sh.vmMap[id])
  {
    var next, r := Some(Lookup(id, ForRemove)), sh.vmMap[id];
    AloneAt(sh, log, sh', 2);
    RemoveAt(t, next, log, 2);
    AloneAt(sh, log, sh', 3);
    RemoveAt(t, next, log, 3);
    EntryGone(sh, sh', id);
  }

  lemma EntryGone(sh: Shared, sh': Shared, id: string)
    requires Keyed(sh) && id in sh.vmMap && sh'.vmMap == sh.vmMap - {id} && sh'.imagePod == sh.imagePod
    requires var r := sh.vmMap[id]; sh'.pods == sh.pods[r := sh.pods[r].(client := None)] && sh'.pool == sh.pool + [id]
    ensures Shows(sh', View(sh).(pods := View(sh).pods - {id}, pool := sh.pool + [id]))
  {
    assert Keyed(sh');
    assert View(sh').pods == View(sh).pods - {id};
  }

  lemma RunAlone(t: nat, volumes: seq<Volume>, log: seq<Entry>, sh: Shared, sh': Shared)
    requires Course(t, Some(Shift(volumes)), log) && Alone(sh, log, sh') && Keyed(sh)
    ensures Effect(RunPodSandbox(volumes), log, sh, sh')
  {
    var next := Some(Shift(volumes));
    RunRuns(t, volumes, log);
    AloneAt(sh, log, sh', 0);
    RunAt(t, next, log, 0);
    AloneAt(sh, log, sh', 1);
    RunAt(t, next, log, 1);
    AloneAt(sh, log, sh', 2);
    if sh.imagePod {
      ListedAlone(t, next, log, sh, sh', Pod(sh.pool[0], true, Some(sh.clients), false, |sh.datas|, false), volumes);
    } else {
      ProvisionAt(t, next, log, 2);
      if Yes(log, 2) { BootedAlone(t, volumes, log, sh, log[1].after, sh'); }
    }
  }

  /** The last access lists the new pod p. */
  lemma ListedAlone(t: nat, next: Option<Action>, log: seq<Entry>, sh: Shared, sh': Shared, p: Pod,
                    volumes: seq<Volume>)
    requires Course(t, next, log) && Alone(sh, log, sh') && Keyed(sh) && sh.pool != []
    requires |log| > 1 && log[|log| - 1].action == Insert(|sh.pods|)
    requires var sh1 := log[|log| - 2].after;
             && sh1.imagePod == sh.imagePod && sh1.pool == sh.pool[1..] && sh1.vmMap == sh.vmMap
             && sh1.pods == sh.pods + [p] && |sh.datas| < |sh1.datas|
             && p == Pod(sh.pool[0], true, Some(sh.clients), !sh.imagePod, |sh.datas|, false)
             && sh1.datas[|sh.datas|].volumes == volumes && sh1.datas[|sh.datas|].instance == !sh.imagePod
    ensures Shows(sh', S.CreateStep(View(sh), "", S.Up(sh.pool[0]), ""))
    ensures |sh'.pods| == |sh.pods| + 1 && NewPodMade(sh, sh', sh'.pods[|sh.pods|], volumes)
  {
    AloneAt(sh, log, sh', |log| - 1);
    RunAt(t, next, log, |log| - 1);
    var q := p.(listed := true);
    assert sh'.pods == sh.pods + [q];
    PodListed(sh, sh', q);
  }

  lemma BootLoopAlone(t: nat, next: Option<Action>, log: seq<Entry>, sh: Shared, sh': Shared, k: nat, n: nat,
                      d: nat, c: nat, volumes: seq<Volume>, job: Job)
    requires Course(t, next, log) && Alone(sh, log, sh') && k <= n < |log|
    requires BootAttaches(d, c, volumes, job, log[k..n])
    ensures OnlyAllocators(log[k].before, log[n].before)
  {
    forall m | k <= m < n ensures Quiet(log[m].action) {
      BootQuiet(d, c, volumes, job, log[k..n], m - k);
      assert log[m] == log[k..n][m - k];
    }
    QuietBetween(t, next, log, sh, sh', k, n);
  }

  lemma ProvisionedAlone(t: nat, next: Option<Action>, volumes: seq<Volume>, log: seq<Entry>, sh: Shared, sh': Shared)
    requires Course(t, next, log) && Alone(sh, log, sh') && |log| > 3 && Yes(log, 2)
    requires log[2].action.Provision? && log[2].action.job.NewPod? && log[2].action.job.volumes == volumes
    ensures var sh2 := log[1].after;
            log[3].before == sh2.(datas := sh2.datas + [Data(true, true, EMPTY, volumes)], clients := sh2.clients + 1)
  {
    AloneAt(sh, log, sh', 2);
    ProvisionAt(t, next, log, 2);
    AloneAt(sh, log, sh', 3);
  }

  /** The boot of a new pod whose VM came up: sh1 is what its address being taken made of sh. */
  lemma BootedAlone(t: nat, volumes: seq<Volume>, log: seq<Entry>, sh: Shared, sh1: Shared, sh': Shared)
    requires Course(t, Some(Shift(volumes)), log) && Alone(sh, log, sh') && Keyed(sh) && |log| > 4
    requires !sh.imagePod && sh.pool != []
    requires sh1 == sh.(pool := sh.pool[1..], shifts := sh1.shifts, ledger := sh1.ledger)
    requires log[1].after == sh1 && Yes(log, 2) && log[2].action == Provision(NewPod(sh.pool[0], volumes))
    requires var d, c, n := |sh.datas|, sh.clients, |log| - 2;
             && BootAttaches(d, c, volumes, NewPod(sh.pool[0], volumes), log[3..n])
             && log[n].action == AttachNext(d, c, [], NewPod(sh.pool[0], volumes))
             && log[n + 1].action == Insert(|log[n].before.pods|)
    ensures Shows(sh', S.CreateStep(View(sh), "", S.Up(sh.pool[0]), ""))
    ensures |sh'.pods| == |sh.pods| + 1 && NewPodMade(sh, sh', sh'.pods[|sh.pods|], volumes)
  {
    var next, n := Some(Shift(volumes)), |log| - 2;
    ProvisionedAlone(t, next, volumes, log, sh, sh');
    BootLoopAlone(t, next, log, sh, sh', 3, n, |sh.datas|, sh.clients, volumes, NewPod(sh.pool[0], volumes));
    LoopDone(sh1, log[3].before, log[n].before, volumes);
    AttachNextAt(t, next, log, n);
    ListedAlone(t, next, log, sh, sh', Pod(sh.pool[0], true, Some(sh.clients), true, |sh.datas|, false), volumes);
  }

  lemma LoopDone(sh: Shared, sh1: Shared, sh2: Shared, volumes: seq<Volume>)
    requires sh1 == sh.(datas := sh.datas + [Data(true, true, EMPTY, volumes)], clients := sh.clients + 1)
    requires OnlyAllocators(sh1, sh2)
    ensures sh2.imagePod == sh.imagePod && sh2.pool == sh.pool && sh2.vmMap == sh.vmMap && sh2.pods == sh.pods
    ensures |sh2.datas| == |sh.datas| + 1 && sh2.datas[|sh.datas|].instance && sh2.datas[|sh.datas|].volumes == volumes
  {
  }

  lemma CreateAlone(t: nat, id: string, mounts: seq<string>, log: seq<Entry>, sh: Shared, sh': Shared)
    requires Course(t, Some(Lookup(id, ForCreate(mounts))), log) && Alone(sh, log, sh') && Keyed(sh)
    ensures Effect(CreateContainer(id, mounts), log, sh, sh')
  {
    var next := Some(Lookup(id, ForCreate(mounts)));
    CreateRuns(t, id, mounts, log);
    LookupAt(t, next, log);
    AloneAt(sh, log, sh', 0);
    if Found(log[0]) {
      AloneAt(sh, log, sh', 1);
      PreCreateAt(t, next, log, 1);
      if !sh.imagePod { TraditionalAlone(t, next, log, sh, sh'); }
      else if !sh.pods[sh.vmMap[id]].booted { ImageAlone(t, id, mounts, log, sh, sh'); }
    }
  }

  lemma TraditionalAlone(t: nat, next: Option<Action>, log: seq<Entry>, sh: Shared, sh': Shared)
    requires Course(t, next, log) && Alone(sh, log, sh') && Keyed(sh)
    requires |log| > 2 && log[1].after == sh && log[2].action.ContBegin?
    ensures Shows(sh', View(sh))
  {
    AloneAt(sh, log, sh', 2);
    ContAlone(t, next, log, sh, sh', 2);
    SameView(sh, sh');
  }

  lemma SameView(sh: Shared, sh': Shared)
    requires Keyed(sh) && OnlyAllocators(sh, sh')
    ensures Shows(sh', View(sh))
  {
  }

  /** From access k on, a ContBegin, only allocators change. */
  lemma ContAlone(t: nat, next: Option<Action>, log: seq<Entry>, sh: Shared, sh': Shared, k: nat)
    requires Course(t, next, log) && Alone(sh, log, sh') && k < |log| && log[k].action.ContBegin?
    ensures OnlyAllocators(log[k].before, sh')
  {
    var last := |log| - 1;
    forall m | k <= m <= last ensures Quiet(log[m].action) { ContQuiet(t, next, log, k, m); }
    QuietBetween(t, next, log, sh, sh', k, last);
    QuietAt(t, next, log, last);
    AloneAt(sh, log, sh', last);
  }

  lemma ImageAlone(t: nat, id: string, mounts: seq<string>, log: seq<Entry>, sh: Shared, sh': Shared)
    requires Course(t, Some(Lookup(id, ForCreate(mounts))), log) && Alone(sh, log, sh') && Keyed(sh)
    requires id in sh.vmMap && sh.imagePod && !sh.pods[sh.vmMap[id]].booted && |log| > 2
    requires ImageCourse(sh.vmMap[id], mounts, log[2..]) && log[1].after == sh
    ensures Shows(sh', S.BootStep(View(sh), id, FateAt(log, 2, id)))
    ensures Yes(log, 2) ==> BootInstalled(sh, sh', sh.vmMap[id])
  {
    var next, r := Some(Lookup(id, ForCreate(mounts))), sh.vmMap[id];
    AloneAt(sh, log, sh', 2);
    ProvisionAt(t, next, log, 2);
    if Yes(log, 2) {
      var n := ImageSplit(log, sh, r, mounts);
      BootEndsAlone(t, next, log, sh, sh', r, mounts, n);
      InstalledView(sh, sh', id);
    }
  }

  /** Where the boot loop of an image pod ends, and createContainer goes on. */
  lemma ImageSplit(log: seq<Entry>, sh: Shared, r: nat, mounts: seq<string>) returns (n: nat)
    requires |log| > 2 && ImageCourse(r, mounts, log[2..]) && log[2].before == sh && Yes(log, 2)
    ensures WellFormed(sh) && r < |sh.pods| && 2 < n < |log| && ContCourse(r, mounts, log[n + 1..])
    ensures BootAttaches(|sh.datas|, sh.clients, sh.datas[sh.pods[r].data].volumes, ImageBoot(r, mounts), log[3..n])
    ensures log[n].action == AttachNext(|sh.datas|, sh.clients, [], ImageBoot(r, mounts))
  {
    var volumes, job := sh.datas[sh.pods[r].data].volumes, ImageBoot(r, mounts);
    var m: nat :| BootsAt(sh, job, volumes, log[2..], m) && ContCourse(r, mounts, log[2..][m + 1..]);
    n := m + 2;
    Slices(log, m);
    BootsAtLog(sh, job, volumes, log, n);
  }

  lemma Slices(log: seq<Entry>, m: nat)
    requires 0 < m && m + 2 < |log|
    ensures log[2..][1..m] == log[3..m + 2] && log[2..][m] == log[m + 2] && log[2..][m + 1..] == log[m + 3..]
  {
  }

  lemma BootsAtLog(sh: Shared, job: Job, volumes: seq<Volume>, log: seq<Entry>, n: nat)
    requires 2 < n < |log| && BootsAt(sh, job, volumes, log[2..], n - 2)
    ensures BootAttaches(|sh.datas|, sh.clients, volumes, job, log[3..n])
    ensures log[n].action == AttachNext(|sh.datas|, sh.clients, [], job)
  {
    Slices(log, n - 2);
  }

  /** What the image boot makes of pod r. */
  ghost predicate Installed(sh: Shared, sh': Shared, r: nat)
    requires WellFormed(sh) && r < |sh.pods|
  {
    && sh'.pods == sh.pods[r := sh.pods[r].(booted := true, client := Some(sh.clients), data := |sh.datas|)]
    && sh'.vmMap == sh.vmMap && sh'.pool == sh.pool && sh'.imagePod == sh.imagePod
    && |sh.datas| < |sh'.datas| && sh'.datas[|sh.datas|].instance
    && sh'.datas[|sh.datas|].volumes == sh.datas[sh.pods[r].data].volumes
  }

  lemma InstalledView(sh: Shared, sh': Shared, id: string)
    requires WellFormed(sh) && Keyed(sh) && id in sh.vmMap && sh.imagePod && !sh.pods[sh.vmMap[id]].booted
    requires Installed(sh, sh', sh.vmMap[id])
    ensures Shows(sh', S.BootStep(View(sh), id, S.Up(id))) && BootInstalled(sh, sh', sh.vmMap[id])
  {
    var r := sh.vmMap[id];
    PodChanged(sh, sh', id, sh.pods[r].(booted := true, client := Some(sh.clients), data := |sh.datas|));
  }

  /** The image boot whose Provision is access 2 ends with access n. */
  lemma BootEndsAlone(t: nat, next: Option<Action>, log: seq<Entry>, sh: Shared, sh': Shared, r: nat,
                      mounts: seq<string>, n: nat)
    requires Course(t, next, log) && Alone(sh, log, sh') && 2 < n < |log|
    requires WellFormed(sh) && r < |sh.pods| && log[2].before == sh
    requires log[2].action == Provision(ImageBoot(r, mounts)) && Yes(log, 2) && ContCourse(r, mounts, log[n + 1..])
    requires BootAttaches(|sh.datas|, sh.clients, sh.datas[sh.pods[r].data].volumes, ImageBoot(r, mounts), log[3..n])
    requires log[n].action == AttachNext(|sh.datas|, sh.clients, [], ImageBoot(r, mounts))
    ensures Installed(sh, sh', r)
  {
    var volumes := sh.datas[sh.pods[r].data].volumes;
    ProvisionAt(t, next, log, 2);
    AloneAt(sh, log, sh', 3);
    BootLoopAlone(t, next, log, sh, sh', 3, n, |sh.datas|, sh.clients, volumes, ImageBoot(r, mounts));
    AttachNextAt(t, next, log, n);
    AloneAt(sh, log, sh', n + 1);
    ContAlone(t, next, log, sh, sh', n + 1);
  }

  /** The other requests only read. */
  lemma ReadsAlone(t: nat, req: Request, log: seq<Entry>, sh: Shared, sh': Shared)
    requires Course(t, Tail(Start(req)), log) && Alone(sh, log, sh')
    requires !req.RunPodSandbox? && !req.StopPodSandbox? && !req.RemovePodSandbox? && !req.CreateContainer?
    ensures sh' == sh
  {
    CourseHandles(t, req, log);
    if log != [] {
      HandlesReads(req, log);
      ReadsKeep(t, Tail(Start(req)), log, sh, sh', |log| - 1);
      ReadAt(t, Tail(Start(req)), log, |log| - 1);
      AloneAt(sh, log, sh', |log| - 1);
    }
  }

  lemma HandlesReads(req: Request, log: seq<Entry>)
    requires Handles(req, log)
    requires !req.RunPodSandbox? && !req.StopPodSandbox? && !req.RemovePodSandbox? && !req.CreateContainer?
    ensures forall m | 0 <= m < |log| :: Reads(log[m].action)
  {
    if req.ListPodSandbox? { ListReads(false, log); }
    if req.ListContainers? { ListReads(true, log); }
  }

  lemma ListReads(containers: bool, log: seq<Entry>)
    requires ListCourse(containers, log)
    ensures forall m | 0 <= m < |log| :: Reads(log[m].action)
  {
    forall m | 0 <= m < |log| ensures Reads(log[m].action) {
      if m > 0 { VisitsRead(log[0].oracle.order, containers, log[1..], m - 1); }
    }
  }

  predicate Reads(a: Action) { !IsRun(a) && !IsBoot(a) && !IsAttach(a) && !IsStop(a) && !IsRemove(a) }

  lemma {:induction false} VisitsRead(refs: seq<nat>, containers: bool, log: seq<Entry>, m: nat)
    requires Visits(refs, containers, log) && m < |log|
    ensures Reads(log[m].action)
    decreases |log|
  {
    if m > 1 {
      VisitsRead(refs[1..], containers, log[2..], m - 2);
      assert log[m] == log[2..][m - 2];
    }
  }

  lemma {:induction false} ReadsKeep(t: nat, next: Option<Action>, log: seq<Entry>, sh: Shared, sh': Shared, n: nat)
    requires Course(t, next, log) && Alone(sh, log, sh') && n < |log|
    requires forall m | 0 <= m < n :: Reads(log[m].action)
    ensures log[n].before == sh
    decreases n
  {
    AloneAt(sh, log, sh', n);
    if n > 0 {
      ReadsKeep(t, next, log, sh, sh', n - 1);
      ReadAt(t, next, log, n - 1);
    }
  }

  /** A handler that arrives in step i and runs alone until it returns makes of pool, vmMap and pods what its step in
      the one-step model does. */
  lemma LoneHandlerDoesItsStep(ss: seq<State>, cs: seq<Choice>, i: nat, j: nat, t: nat)
    requires Trace(ss, cs) && Serves(ss, cs, i, j, t)
    requires forall l | i < l < j :: cs[l].Run? && cs[l].thread == t
    ensures Keyed(ss[i].shared)
    ensures Effect(cs[i].request, Log(ss, cs, i + 1, j, t), ss[i].shared, ss[j].shared)
  {
    var log, sh, sh' := Log(ss, cs, i + 1, j, t), ss[i].shared, ss[j].shared;
    KeyedInvariant(ss, cs, i);
    ArrivalCourse(ss, cs, i, j, t);
    AloneOf(ss, cs, i + 1, j, t);
    EffectOf(t, cs[i].request, log, sh, sh');
  }

  lemma EffectOf(t: nat, req: Request, log: seq<Entry>, sh: Shared, sh': Shared)
    requires Course(t, Tail(Start(req)), log) && Alone(sh, log, sh') && Keyed(sh)
    ensures Effect(req, log, sh, sh')
  {
    Front(Start(req));
    match req
    case RunPodSandbox(volumes) => RunAlone(t, volumes, log, sh, sh');
    case StopPodSandbox(id) => StopAlone(t, id, log, sh, sh');
    case RemovePodSandbox(id) => RemoveAlone(t, id, log, sh, sh');
    case CreateContainer(id, mounts) => CreateAlone(t, id, mounts, log, sh, sh');
    case _ => ReadsAlone(t, req, log, sh, sh');
  }
}
