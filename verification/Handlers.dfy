/** What each request does: the accesses its handler makes, from its arrival to its return, in any interleaving with
    others. */
module Handlers {
  import opened Wrappers
  import opened EbsDevices
  import opened Protocol
  import opened LockOrder
  import opened OnceOnly
  import opened AddressBooks
  import opened ProtocolRuns
  import opened LateDeletes

  // ---------- The course of a handler ----------

  /** One access: the shared data it found, what the environment answered, the shared data it left, and how the
      handler goes on. */
  datatype Entry = Entry(before: Shared, action: Action, oracle: Oracle, after: Shared, next: Code)

  /** The access is one of thread t, and the process survived it. */
  ghost predicate Made(t: nat, e: Entry) {
    && WellFormed(e.before) && Refs(e.before, e.action) && Fits(e.before, e.action, e.oracle)
    && Exec(e.before, t, e.action, e.oracle) == (e.after, e.next) && e.after.panicked.None?
  }

  /** The n-th access of a log, if there is one. */
  function Nth(log: seq<Entry>, n: nat): Option<Action> { if n < |log| then Some(log[n].action) else None }

  ghost predicate Linked(log: seq<Entry>, n: nat)
    requires n < |log|
  {
    Tail(log[n].next) == Nth(log, n + 1)
  }

  ghost predicate AllMade(t: nat, log: seq<Entry>) { forall e | e in log :: Made(t, e) }

  /** A handler with this access ahead makes the accesses of log and returns. Others may change the shared data between
      two of them. */
  ghost predicate Course(t: nat, next: Option<Action>, log: seq<Entry>) {
    next == Nth(log, 0) && AllMade(t, log) && forall n | 0 <= n < |log| :: Linked(log, n)
  }

  lemma Cons(t: nat, e: Entry, log: seq<Entry>)
    requires Made(t, e) && Course(t, Tail(e.next), log)
    ensures Course(t, Some(e.action), [e] + log)
  {
    var all := [e] + log;
    forall n | 0 <= n < |all| ensures Linked(all, n) {
      if n > 0 { assert Linked(log, n - 1); }
    }
  }

  /** What is left of a course from its k-th access on. */
  lemma Suffix(t: nat, next: Option<Action>, log: seq<Entry>, k: nat)
    requires Course(t, next, log) && k <= |log|
    ensures Course(t, Nth(log, k), log[k..])
  {
    forall n | 0 <= n < |log[k..]| ensures Linked(log[k..], n) { assert Linked(log, k + n); }
  }

  /** Step k is an access of thread t. */
  ghost predicate Steps(ss: seq<State>, cs: seq<Choice>, k: nat, t: nat)
    requires |ss| == |cs| + 1 && k < |cs|
  {
    && cs[k].Run? && cs[k].thread == t && t < |ss[k].threads| && ss[k].threads[t].code.Do?
    && t < |ss[k + 1].threads|
  }

  ghost function EntryOf(ss: seq<State>, cs: seq<Choice>, k: nat, t: nat): Entry
    requires |ss| == |cs| + 1 && k < |cs| && Steps(ss, cs, k, t)
  {
    Entry(ss[k].shared, ss[k].threads[t].code.action, cs[k].oracle, ss[k + 1].shared, ss[k + 1].threads[t].code)
  }

  /** The accesses of thread t in the steps k..j. */
  ghost function Log(ss: seq<State>, cs: seq<Choice>, k: nat, j: nat, t: nat): seq<Entry>
    requires |ss| == |cs| + 1 && k <= j <= |cs|
    decreases j - k
  {
    if k == j then [] else (if Steps(ss, cs, k, t) then [EntryOf(ss, cs, k, t)] else []) + Log(ss, cs, k + 1, j, t)
  }

  lemma LogStep(ss: seq<State>, cs: seq<Choice>, k: nat, j: nat, t: nat)
    requires |ss| == |cs| + 1 && k < j <= |cs|
    ensures var log, rest := Log(ss, cs, k, j, t), Log(ss, cs, k + 1, j, t);
            if Steps(ss, cs, k, t) then |log| > 0 && log[0] == EntryOf(ss, cs, k, t) && log[1..] == rest
            else log == rest
  {
  }

  /** Thread t has returned, and the process lives. */
  ghost predicate Returned(s: State, t: nat) { t < |s.threads| && s.threads[t].code.Done? && s.shared.panicked.None? }

  lemma OneCourse(ss: seq<State>, cs: seq<Choice>, k: nat, t: nat)
    requires Trace(ss, cs) && k < |cs| && t < |ss[k].threads| && ss[k + 1].shared.panicked.None?
    ensures t < |ss[k + 1].threads|
    ensures if Steps(ss, cs, k, t) then
              Made(t, EntryOf(ss, cs, k, t)) && Tail(ss[k].threads[t].code) == Some(EntryOf(ss, cs, k, t).action)
            else
              && Tail(ss[k + 1].threads[t].code) == Tail(ss[k].threads[t].code)
              && (cs[k].Run? && cs[k].thread == t ==> ss[k + 1].shared == ss[k].shared)
  {
    assert Follows(ss, cs, k);
  }

  /** The process lives until the last state of a run. */
  lemma LivesBefore(ss: seq<State>, cs: seq<Choice>, k: nat, j: nat)
    requires Trace(ss, cs) && k <= j < |ss| && ss[j].shared.panicked.None?
    ensures ss[k].shared.panicked.None?
  {
    assert k < j ==> Follows(ss, cs, k);
  }

  /** In any interleaving, what a returned handler did since step k is a course from what it had ahead then. */
  lemma {:induction false} CourseOf(ss: seq<State>, cs: seq<Choice>, k: nat, j: nat, t: nat)
    requires Trace(ss, cs) && k <= j <= |cs| && t < |ss[k].threads| && Returned(ss[j], t)
    ensures Course(t, Tail(ss[k].threads[t].code), Log(ss, cs, k, j, t))
    decreases j - k
  {
    if k < j {
      LivesBefore(ss, cs, k + 1, j);
      OneCourse(ss, cs, k, t);
      CourseOf(ss, cs, k + 1, j, t);
      LogStep(ss, cs, k, j, t);
      if Steps(ss, cs, k, t) { Cons(t, EntryOf(ss, cs, k, t), Log(ss, cs, k + 1, j, t)); }
    }
  }

  /** The n-th access of the log is that of a step. */
  lemma {:induction false} StepOf(ss: seq<State>, cs: seq<Choice>, k: nat, j: nat, t: nat, n: nat) returns (l: nat)
    requires |ss| == |cs| + 1 && k <= j <= |cs| && n < |Log(ss, cs, k, j, t)|
    ensures k <= l < j && Steps(ss, cs, l, t) && Log(ss, cs, k, j, t)[n] == EntryOf(ss, cs, l, t)
    ensures Log(ss, cs, k, j, t)[n + 1..] == Log(ss, cs, l + 1, j, t)
    decreases j - k
  {
    LogStep(ss, cs, k, j, t);
    var log := Log(ss, cs, k, j, t);
    if !Steps(ss, cs, k, t) {
      l := StepOf(ss, cs, k + 1, j, t, n);
    } else if n == 0 {
      l := k;
    } else {
      l := StepOf(ss, cs, k + 1, j, t, n - 1);
      assert log[1..][n - 1] == log[n] && log[1..][n..] == log[n + 1..];
    }
  }

  // ---------- What each request does, in any interleaving ----------

  /** After the access, and before its next one, the handler locks l. */
  ghost predicate Passes(e: Entry, l: Lock) { Takes(e.next, l) }

  /** StopPodSandbox: looks the pod up; without it, without a client or without an answer to its list call that is
      all. Otherwise it calls the container provider once for the list and once for each container, marks the pod
      and detaches the volumes of its providerData. */
  ghost predicate StopCourse(id: string, log: seq<Entry>) {
    && |log| > 0 && log[0].action == Lookup(id, ForStop)
    && if id !in log[0].before.vmMap then |log| == 1
       else
         var r := log[0].before.vmMap[id];
         && |log| > 1 && log[1].action == StopBegin(r) && r < |log[1].before.pods|
         && var client, o := log[1].before.pods[r].client, log[1].oracle;
            if client.None? then |log| == 2
            else
              && Passes(log[1], ContLock(client.value))
              && if !o.ok then |log| == 2 else StopLoopCourse(r, client.value, o.count, log[2..])
  }

  ghost predicate StopLoopCourse(r: nat, c: nat, left: nat, log: seq<Entry>) {
    && |log| == left + 2
    && (forall n | 0 <= n <= left :: log[n].action == StopLoop(r, c, left - n))
    && (forall n | 0 <= n < left :: Passes(log[n], ContLock(c)))
    && r < |log[left].before.pods| && log[left + 1].action == DetachAll(r, log[left].before.pods[r].data)
  }

  /** RemovePodSandbox: looks the pod up, drops its client unless its VM is booted and not destroyed, and then gives
      the address back and deletes the entry, in this order. */
  ghost predicate RemoveCourse(id: string, log: seq<Entry>) {
    && |log| > 0 && log[0].action == Lookup(id, ForRemove)
    && if id !in log[0].before.vmMap then |log| == 1
       else
         var r := log[0].before.vmMap[id];
         && |log| > 1 && log[1].action == RemoveBody(r) && r < |log[1].before.pods|
         && if log[1].before.pods[r].booted && !log[1].oracle.ok then |log| == 2
            else
              && log[1].before.pods[r].client.Some? && |log| == 4 && log[2].action == Release(r)
              && log[3].action.Delete? && log[3].action.pod == r
  }

  /** The Attach with which the boot loop tries the first of its volumes. */
  function Ask(a: Action): Action
    requires a.AttachNext? && a.rest != []
  {
    DecideAttach(a.data, a.rest[0].volume, a.rest[0].device, BootLoop(a.data, a.client, a.rest[1..], a.job))
  }

  /** One turn of the boot loop: Attach is called for the first volume, at its device, and asks the cloud if it decides
      to. */
  ghost predicate BootTurn(a: Action, turn: seq<Entry>)
    requires a.AttachNext? && a.rest != []
  {
    && |turn| > 1 && turn[0].action == a && turn[1].action == Ask(a) && a.data < |turn[1].before.datas|
    && match Decide(turn[1].before.datas[a.data].alloc, a.rest[0].volume, a.rest[0].device)
       case Try(dev) => |turn| == 3 && turn[2].action == CloudAttach(a.data, a.rest[0].volume, dev, Ask(a).loop)
       case _ => |turn| == 2
  }

  /** The boot loop: a turn for every volume, in order. */
  ghost predicate BootAttaches(d: nat, c: nat, rest: seq<Volume>, job: Job, log: seq<Entry>)
    decreases |log|
  {
    if rest == [] then log == []
    else exists n: nat :: 0 < n <= |log| && BootTurn(AttachNext(d, c, rest, job), log[..n])
                          && BootAttaches(d, c, rest[1..], job, log[n..])
  }

  /** RunPodSandbox: takes the first free address; lists a new pod under it at once, or after its VM is there and
      every volume was tried; without a VM it lists nothing. */
  ghost predicate RunCourse(volumes: seq<Volume>, log: seq<Entry>) {
    && |log| > 2 && log[0].action == Shift(volumes) && log[0].before.pool != []
    && var x := log[0].before.pool[0];
       && log[1].action == Launch(x, volumes)
       && if log[1].before.imagePod then |log| == 3 && log[2].action == Insert(|log[1].before.pods|)
          else
            && log[2].action == Provision(NewPod(x, volumes))
            && if !log[2].oracle.ok then |log| == 3
               else
                 var d, c, n := |log[2].before.datas|, log[2].before.clients, |log| - 2;
                 && |log| > 4 && BootAttaches(d, c, volumes, NewPod(x, volumes), log[3..n])
                 && log[n].action == AttachNext(d, c, [], NewPod(x, volumes))
                 && log[n + 1].action == Insert(|log[n].before.pods|)
  }

  /** One turn of the mount loop of createContainer: the first volume is attached, at the next free device, when it is
      not attached yet. */
  ghost predicate MountTurn(a: Action, turn: seq<Entry>)
    requires a.MountNext? && a.mounts != []
  {
    && |turn| > 1 && turn[0].action == a && a.pod < |turn[0].before.pods|
    && var d := turn[0].before.pods[a.pod].data;
       && turn[1].action == NeedMount(a.pod, a.client, d, a.mounts[0], a.mounts[1..]) && d < |turn[1].before.datas|
       && if a.mounts[0] in turn[1].before.datas[d].alloc.attached then |turn| == 2
          else
            && |turn| > 2 && d < |turn[2].before.datas|
            && turn[2].action == DecideAttach(d, a.mounts[0], "", MountLoop(a.pod, a.client, a.mounts[1..]))
            && match Decide(turn[2].before.datas[d].alloc, a.mounts[0], "")
               case Try(dev) => |turn| == 4 && turn[3].action == CloudAttach(d, a.mounts[0], dev, turn[2].action.loop)
               case _ => |turn| == 3
  }

  /** The mount loop: a turn for every volume, in order, and then the call to the container provider. */
  ghost predicate MountAttaches(r: nat, c: nat, mounts: seq<string>, log: seq<Entry>)
    decreases |log|
  {
    if mounts == [] then |log| == 1 && log[0].action == MountNext(r, c, []) && Passes(log[0], ContLock(c))
    else exists n: nat :: 0 < n <= |log| && MountTurn(MountNext(r, c, mounts), log[..n])
                          && MountAttaches(r, c, mounts[1..], log[n..])
  }

  /** createContainer behind its preCreateContainer. */
  ghost predicate ContCourse(r: nat, mounts: seq<string>, log: seq<Entry>) {
    && |log| > 0 && log[0].action == ContBegin(r, mounts) && r < |log[0].before.pods|
    && match log[0].before.pods[r].client
       case None => |log| == 1
       case Some(c) => MountAttaches(r, c, mounts, log[1..])
  }

  /** CreateContainer: looks the pod up; boots it first if it is an image pod that is not booted, with the volumes of
      its providerData; a booted image pod or a failed boot ends it. In any case it adds the log path last. */
  ghost predicate CreateCourse(id: string, mounts: seq<string>, log: seq<Entry>) {
    && |log| > 0 && log[0].action == Lookup(id, ForCreate(mounts))
    && if id !in log[0].before.vmMap || !log[0].oracle.ok then |log| == 1
       else
         var r := log[0].before.vmMap[id];
         && |log| > 1 && log[1].action == PreCreate(r, mounts) && r < |log[1].before.pods|
         && Passes(log[|log| - 1], StateLock(r))
         && if !log[1].before.imagePod then ContCourse(r, mounts, log[2..])
            else if log[1].before.pods[r].booted then |log| == 2
            else |log| > 2 && ImageCourse(r, mounts, log[2..])
  }

  ghost predicate ImageCourse(r: nat, mounts: seq<string>, log: seq<Entry>) {
    && |log| > 0 && log[0].action == Provision(ImageBoot(r, mounts))
    && if !log[0].oracle.ok then |log| == 1
       else
         var sh, job := log[0].before, ImageBoot(r, mounts);
         && WellFormed(sh) && r < |sh.pods|
         && exists n: nat ::
              BootsAt(sh, job, sh.datas[sh.pods[r].data].volumes, log, n) && ContCourse(r, mounts, log[n + 1..])
  }

  /** The boot loop over volumes ends with access n of the log. */
  ghost predicate BootsAt(sh: Shared, job: Job, volumes: seq<Volume>, log: seq<Entry>, n: nat) {
    && 0 < n < |log| && BootAttaches(|sh.datas|, sh.clients, volumes, job, log[1..n])
    && log[n].action == AttachNext(|sh.datas|, sh.clients, [], job)
  }

  /** The calls that look one pod up and make one access to it. */
  ghost predicate LookCourse(id: string, purpose: Purpose, access: nat -> Action, log: seq<Entry>) {
    && |log| > 0 && log[0].action == Lookup(id, purpose)
    && if id !in log[0].before.vmMap then |log| == 1
       else |log| == 2 && log[1].action == access(log[0].before.vmMap[id])
  }

  ghost predicate CallCourse(id: string, log: seq<Entry>) {
    && LookCourse(id, ForCall, (r: nat) => CallBody(r), log)
    && (|log| == 2 ==>
          var r := log[0].before.vmMap[id];
          && r < |log[1].before.pods|
          && (log[1].before.pods[r].client.Some? ==> Passes(log[1], ContLock(log[1].before.pods[r].client.value))))
  }

  /** The list calls: copy vmMap, then visit each of its pods; listContainers calls each pod's container provider. */
  ghost predicate Visits(refs: seq<nat>, containers: bool, log: seq<Entry>)
    decreases |log|
  {
    && |log| > 0 && log[0].action == ListNext(refs, containers)
    && if refs == [] then |log| == 1
       else
         && |log| > 1 && refs[0] < |log[1].before.pods| && log[1].action == Visit(refs[0], refs[1..], containers)
         && (containers && log[1].before.pods[refs[0]].client.Some? ==>
               Passes(log[1], ContLock(log[1].before.pods[refs[0]].client.value)))
         && Visits(refs[1..], containers, log[2..])
  }

  ghost predicate ListCourse(containers: bool, log: seq<Entry>) {
    && |log| > 0 && log[0].action == CopyMap(containers)
    && (forall r :: r in log[0].oracle.order <==> r in log[0].before.vmMap.Values)
    && Visits(log[0].oracle.order, containers, log[1..])
  }

  ghost predicate Handles(req: Request, log: seq<Entry>) {
    match req
    case RunPodSandbox(volumes) => RunCourse(volumes, log)
    case StopPodSandbox(id) => StopCourse(id, log)
    case RemovePodSandbox(id) => RemoveCourse(id, log)
    case PodSandboxStatus(id) => LookCourse(id, ForStatus, (r: nat) => StatusBody(r), log)
    case ListPodSandbox => ListCourse(false, log)
    case CreateContainer(id, mounts) => CreateCourse(id, mounts, log)
    case ContainerCall(id) => CallCourse(id, log)
    case ListContainers => ListCourse(true, log)
    case ReadLogPath(_) => log == []
    case ChangeMounts => log == []
  }

  // ---------- Proofs of the courses ----------

  lemma MadeAt(t: nat, log: seq<Entry>, n: nat)
    requires AllMade(t, log) && n < |log|
    ensures Made(t, log[n])
  {
    assert log[n] in log;
  }

  function Found(e: Entry): bool
    requires e.action.Lookup?
  {
    e.action.id in e.before.vmMap && (e.action.purpose.ForCreate? ==> e.oracle.ok)
  }

  lemma LookupAt(t: nat, next: Option<Action>, log: seq<Entry>)
    requires Course(t, next, log) && next.Some? && next.value.Lookup?
    ensures |log| > 0 && log[0].action == next.value && log[0].after == log[0].before
    ensures if !Found(log[0]) then |log| == 1
            else
              var r := log[0].before.vmMap[next.value.id];
              Nth(log, 1) == match next.value.purpose
                             case ForStop => Some(StopBegin(r))
                             case ForRemove => Some(RemoveBody(r))
                             case ForStatus => Some(StatusBody(r))
                             case ForCreate(mounts) => Some(PreCreate(r, mounts))
                             case ForCall => Some(CallBody(r))
  {
    MadeAt(t, log, 0);
    Front(log[0].next);
    assert Linked(log, 0);
  }

  lemma StopBeginAt(t: nat, next: Option<Action>, log: seq<Entry>, n: nat)
    requires Course(t, next, log) && n < |log| && log[n].action.StopBegin?
    ensures var e, r := log[n], log[n].action.pod;
            && e.after == e.before && r < |e.before.pods|
            && match e.before.pods[r].client
               case None => n + 1 == |log|
               case Some(c) =>
                 && Passes(e, ContLock(c))
                 && Nth(log, n + 1) == if e.oracle.ok then Some(StopLoop(r, c, e.oracle.count)) else None
  {
    MadeAt(t, log, n);
    Front(log[n].next);
    assert Linked(log, n);
  }

  lemma StopLoopAt(t: nat, next: Option<Action>, log: seq<Entry>, n: nat)
    requires Course(t, next, log) && n < |log| && log[n].action.StopLoop?
    ensures var e, r, c, left := log[n], log[n].action.pod, log[n].action.client, log[n].action.left;
            && r < |e.before.pods|
            && if left > 0 then
                 e.after == e.before && Passes(e, ContLock(c)) && Nth(log, n + 1) == Some(StopLoop(r, c, left - 1))
               else
                 && e.after == WithPod(e.before, r, e.before.pods[r].(ready := false))
                 && Nth(log, n + 1) == Some(DetachAll(r, e.before.pods[r].data))
  {
    MadeAt(t, log, n);
    Front(log[n].next);
    assert Linked(log, n);
  }

  lemma DetachAllAt(t: nat, next: Option<Action>, log: seq<Entry>, n: nat)
    requires Course(t, next, log) && n < |log| && log[n].action.DetachAll?
    ensures var e, d := log[n], log[n].action.data;
            && d < |e.before.datas| && e.after == WithData(e.before, d, e.before.datas[d].(volumes := []))
            && n + 1 == |log|
  {
    MadeAt(t, log, n);
    Front(log[n].next);
    assert Linked(log, n);
  }

  lemma {:induction false} StopLoopRuns(t: nat, r: nat, c: nat, left: nat, log: seq<Entry>)
    requires Course(t, Some(StopLoop(r, c, left)), log)
    ensures StopLoopCourse(r, c, left, log)
    decreases left
  {
    StopLoopAt(t, Some(StopLoop(r, c, left)), log, 0);
    if left > 0 {
      Suffix(t, Some(StopLoop(r, c, left)), log, 1);
      StopLoopRuns(t, r, c, left - 1, log[1..]);
      StopLoopCons(r, c, left, log);
    } else {
      DetachAllAt(t, Some(StopLoop(r, c, left)), log, 1);
    }
  }

  lemma StopLoopCons(r: nat, c: nat, left: nat, log: seq<Entry>)
    requires left > 0 && |log| > 0 && log[0].action == StopLoop(r, c, left) && Passes(log[0], ContLock(c))
    requires StopLoopCourse(r, c, left - 1, log[1..])
    ensures StopLoopCourse(r, c, left, log)
  {
    forall n | 0 < n <= left ensures log[n].action == StopLoop(r, c, left - n) { assert log[n] == log[1..][n - 1]; }
    forall n | 0 < n < left ensures Passes(log[n], ContLock(c)) { assert log[n] == log[1..][n - 1]; }
    assert log[left] == log[1..][left - 1] && log[left + 1] == log[1..][left];
  }

  lemma StopRuns(t: nat, id: string, log: seq<Entry>)
    requires Course(t, Some(Lookup(id, ForStop)), log)
    ensures StopCourse(id, log)
  {
    LookupAt(t, Some(Lookup(id, ForStop)), log);
    if Found(log[0]) {
      StopBeginAt(t, Some(Lookup(id, ForStop)), log, 1);
      var r := log[0].before.vmMap[id];
      var client, o := log[1].before.pods[r].client, log[1].oracle;
      if client.Some? && o.ok {
        Suffix(t, Some(Lookup(id, ForStop)), log, 2);
        StopLoopRuns(t, r, client.value, o.count, log[2..]);
      }
    }
  }

  lemma RemoveAt(t: nat, next: Option<Action>, log: seq<Entry>, n: nat)
    requires Course(t, next, log) && n < |log| && IsRemove(log[n].action)
    ensures var e, r, sh := log[n], log[n].action.pod, log[n].before;
            && r < |sh.pods|
            && match e.action
               case RemoveBody(_) =>
                 if sh.pods[r].booted && !e.oracle.ok then e.after == sh && n + 1 == |log|
                 else
                   && sh.pods[r].client.Some? && e.after == WithPod(sh, r, sh.pods[r].(client := None))
                   && Nth(log, n + 1) == Some(Release(r))
               case Release(_) =>
                 && e.after == sh.(pool := sh.pool + [sh.pods[r].addr], ledger := sh.ledger[sh.pods[r].addr := Free])
                 && Nth(log, n + 1) == Some(Delete(r, |sh.pool|, sh.shifts))
               case Delete(_, _, _) => e.after == sh.(vmMap := sh.vmMap - {sh.pods[r].addr}) && n + 1 == |log|
  {
    MadeAt(t, log, n);
    Front(log[n].next);
    assert Linked(log, n);
    var e := log[n];
    assert Exec(e.before, t, e.action, e.oracle) == RemoveStep(e.before, e.action, e.oracle);
  }

  lemma RemoveRuns(t: nat, id: string, log: seq<Entry>)
    requires Course(t, Some(Lookup(id, ForRemove)), log)
    ensures RemoveCourse(id, log)
  {
    var next := Some(Lookup(id, ForRemove));
    LookupAt(t, next, log);
    if Found(log[0]) {
      RemoveAt(t, next, log, 1);
      if |log| > 2 {
        RemoveAt(t, next, log, 2);
        RemoveAt(t, next, log, 3);
      }
    }
  }

  lemma RunAt(t: nat, next: Option<Action>, log: seq<Entry>, n: nat)
    requires Course(t, next, log) && n < |log| && IsRun(log[n].action)
    ensures var e, sh := log[n], log[n].before;
            match e.action
            case Shift(volumes) =>
              && sh.pool != [] && Nth(log, n + 1) == Some(Launch(sh.pool[0], volumes))
              && e.after == sh.(pool := sh.pool[1..], shifts := sh.shifts + 1,
                                ledger := sh.ledger[sh.pool[0] := Carried(t)])
            case Launch(x, volumes) =>
              if sh.imagePod then
                && Nth(log, n + 1) == Some(Insert(|sh.pods|))
                && e.after == sh.(datas := sh.datas + [Data(false, false, EMPTY, volumes)], clients := sh.clients + 1,
                                  pods := sh.pods + [Pod(x, true, Some(sh.clients), false, |sh.datas|, false)])
              else e.after == sh && Nth(log, n + 1) == Some(Provision(NewPod(x, volumes)))
            case Insert(q) =>
              && q < |sh.pods| && n + 1 == |log|
              && e.after == WithPod(sh, q, sh.pods[q].(listed := true)).(
                              vmMap := sh.vmMap[sh.pods[q].addr := q], ledger := sh.ledger[sh.pods[q].addr := Held(q)])
  {
    MadeAt(t, log, n);
    Front(log[n].next);
    assert Linked(log, n);
    var e := log[n];
    assert Exec(e.before, t, e.action, e.oracle) == RunStep(e.before, t, e.action);
  }

  lemma ProvisionAt(t: nat, next: Option<Action>, log: seq<Entry>, n: nat)
    requires Course(t, next, log) && n < |log| && log[n].action.Provision?
    ensures var e, sh, job := log[n], log[n].before, log[n].action.job;
            && WellFormed(sh) && (job.ImageBoot? ==> job.pod < |sh.pods|)
            && if !e.oracle.ok then
                 && n + 1 == |log| && (job.ImageBoot? ==> Passes(e, StateLock(job.pod)))
                 && e.after == if job.NewPod? then sh.(ledger := sh.ledger[job.addr := Lost]) else sh
               else
                 var volumes := if job.NewPod? then job.volumes else sh.datas[sh.pods[job.pod].data].volumes;
                 && Nth(log, n + 1) == Some(AttachNext(|sh.datas|, sh.clients, volumes, job))
                 && e.after == sh.(datas := sh.datas + [Data(true, true, EMPTY, volumes)], clients := sh.clients + 1)
  {
    MadeAt(t, log, n);
    Front(log[n].next);
    assert Linked(log, n);
    var e := log[n];
    assert Exec(e.before, t, e.action, e.oracle) == BootStep(e.before, e.action, e.oracle);
  }

  lemma AttachNextAt(t: nat, next: Option<Action>, log: seq<Entry>, n: nat)
    requires Course(t, next, log) && n < |log| && log[n].action.AttachNext?
    ensures var e, sh, a := log[n], log[n].before, log[n].action;
            && (a.job.ImageBoot? ==> a.job.pod < |sh.pods|)
            && if a.rest != [] then e.after == sh && Nth(log, n + 1) == Some(Ask(a))
               else match a.job
                 case NewPod(x, _) =>
                   && e.after == sh.(pods := sh.pods + [Pod(x, true, Some(a.client), true, a.data, false)])
                   && Nth(log, n + 1) == Some(Insert(|sh.pods|))
                 case ImageBoot(r, mounts) =>
                   && e.after == WithPod(sh, r, sh.pods[r].(booted := true, client := Some(a.client), data := a.data)).(
                                   bootLog := sh.bootLog + [r])
                   && Nth(log, n + 1) == Some(ContBegin(r, mounts))
  {
    MadeAt(t, log, n);
    Front(log[n].next);
    assert Linked(log, n);
    var e := log[n];
    assert Exec(e.before, t, e.action, e.oracle) == BootStep(e.before, e.action, e.oracle);
  }

  /** What an Attach leaves alone: all but the allocator of its providerData. */
  ghost predicate OnlyAllocators(sh: Shared, sh': Shared) {
    && sh'.imagePod == sh.imagePod && sh'.pool == sh.pool && sh'.vmMap == sh.vmMap && sh'.pods == sh.pods
    && sh'.clients == sh.clients && |sh'.datas| == |sh.datas|
    && forall d | 0 <= d < |sh.datas| :: sh'.datas[d] == sh.datas[d].(alloc := sh'.datas[d].alloc)
  }

  lemma AttachAt(t: nat, next: Option<Action>, log: seq<Entry>, n: nat)
    requires Course(t, next, log) && n < |log| && IsAttach(log[n].action)
    ensures var e, a := log[n], log[n].action;
            && a.data < |e.before.datas| && OnlyAllocators(e.before, e.after)
            && var decision := Decide(e.before.datas[a.data].alloc, a.vol, a.device);
               Nth(log, n + 1) == if a.DecideAttach? && decision.Try?
                                  then Some(CloudAttach(a.data, a.vol, decision.device, a.loop))
                                  else Tail(Resume(a.loop))
  {
    MadeAt(t, log, n);
    assert Linked(log, n);
    var e := log[n];
    assert Exec(e.before, t, e.action, e.oracle) == AttachStep(e.before, e.action, e.oracle);
    if e.action.DecideAttach? { TryHasLetter(e.before.datas[e.action.data].alloc, e.action.vol, e.action.device); }
  }

  /** One Attach: it is decided, asked for if that was the decision, and then the loop goes on; n is where. */
  lemma AttachRuns(t: nat, next: Option<Action>, log: seq<Entry>, k: nat) returns (n: nat)
    requires Course(t, next, log) && k < |log| && log[k].action.DecideAttach?
    ensures k < n <= |log| && log[k].action.data < |log[k].before.datas|
    ensures var a := log[k].action;
            match Decide(log[k].before.datas[a.data].alloc, a.vol, a.device)
            case Try(dev) => n == k + 2 && log[k + 1].action == CloudAttach(a.data, a.vol, dev, a.loop)
            case _ => n == k + 1
    ensures Nth(log, n) == Tail(Resume(log[k].action.loop))
  {
    AttachAt(t, next, log, k);
    var a := log[k].action;
    n := k + 1;
    if Decide(log[k].before.datas[a.data].alloc, a.vol, a.device).Try? {
      AttachAt(t, next, log, k + 1);
      n := k + 2;
    }
  }

  lemma OneVolume(t: nat, next: Option<Action>, log: seq<Entry>, k: nat) returns (n: nat)
    requires Course(t, next, log) && k < |log| && log[k].action.AttachNext? && log[k].action.rest != []
    ensures k < n < |log| && BootTurn(log[k].action, log[k..n])
    ensures var a := log[k].action; log[n].action == AttachNext(a.data, a.client, a.rest[1..], a.job)
  {
    AttachNextAt(t, next, log, k);
    n := AttachRuns(t, next, log, k + 1);
  }

  lemma BootPrepend(a: Action, log: seq<Entry>, k: nat, m: nat, n: nat)
    requires k < m <= n <= |log| && a.AttachNext? && a.rest != [] && BootTurn(a, log[k..m])
    requires BootAttaches(a.data, a.client, a.rest[1..], a.job, log[m..n])
    ensures BootAttaches(a.data, a.client, a.rest, a.job, log[k..n])
  {
    assert log[k..n][..m - k] == log[k..m] && log[k..n][m - k..] == log[m..n];
  }

  /** From access k, an AttachNext, the boot loop runs to access n, the AttachNext with nothing left. */
  lemma {:induction false} BootRuns(t: nat, next: Option<Action>, log: seq<Entry>, k: nat) returns (n: nat)
    requires Course(t, next, log) && k < |log| && log[k].action.AttachNext?
    ensures k <= n < |log|
    ensures var a := log[k].action;
            && BootAttaches(a.data, a.client, a.rest, a.job, log[k..n])
            && log[n].action == AttachNext(a.data, a.client, [], a.job)
    decreases |log[k].action.rest|
  {
    if log[k].action.rest == [] {
      n := k;
    } else {
      var m := OneVolume(t, next, log, k);
      n := BootRuns(t, next, log, m);
      BootPrepend(log[k].action, log, k, m, n);
    }
  }

  lemma RunRuns(t: nat, volumes: seq<Volume>, log: seq<Entry>)
    requires Course(t, Some(Shift(volumes)), log)
    ensures RunCourse(volumes, log)
  {
    var next := Some(Shift(volumes));
    RunAt(t, next, log, 0);
    RunAt(t, next, log, 1);
    if log[1].before.imagePod {
      RunAt(t, next, log, 2);
    } else {
      ProvisionAt(t, next, log, 2);
      if log[2].oracle.ok {
        var n := BootRuns(t, next, log, 3);
        AttachNextAt(t, next, log, n);
        RunAt(t, next, log, n + 1);
      }
    }
  }

  lemma MountAt(t: nat, next: Option<Action>, log: seq<Entry>, n: nat)
    requires Course(t, next, log) && n < |log|
    requires log[n].action.ContBegin? || log[n].action.MountNext? || log[n].action.NeedMount?
    ensures var e, sh := log[n], log[n].before;
            && e.after == sh && e.action.pod < |sh.pods|
            && match e.action
               case ContBegin(r, mounts) =>
                 (match sh.pods[r].client
                  case None => n + 1 == |log| && Passes(e, StateLock(r))
                  case Some(c) => Nth(log, n + 1) == Some(MountNext(r, c, mounts)))
               case MountNext(r, c, mounts) =>
                 if mounts == [] then n + 1 == |log| && Passes(e, ContLock(c)) && Passes(e, StateLock(r))
                 else Nth(log, n + 1) == Some(NeedMount(r, c, sh.pods[r].data, mounts[0], mounts[1..]))
               case NeedMount(r, c, d, vol, mounts) =>
                 && d < |sh.datas|
                 && Nth(log, n + 1) == if vol in sh.datas[d].alloc.attached then Some(MountNext(r, c, mounts))
                                       else Some(DecideAttach(d, vol, "", MountLoop(r, c, mounts)))
  {
    MadeAt(t, log, n);
    Front(log[n].next);
    assert Linked(log, n);
    var e := log[n];
    assert Exec(e.before, t, e.action, e.oracle) == ReadStep(e.before, e.action, e.oracle);
  }

  lemma PreCreateAt(t: nat, next: Option<Action>, log: seq<Entry>, n: nat)
    requires Course(t, next, log) && n < |log| && log[n].action.PreCreate?
    ensures var e, sh, r, mounts := log[n], log[n].before, log[n].action.pod, log[n].action.mounts;
            && e.after == sh && r < |sh.pods|
            && if !sh.imagePod then Nth(log, n + 1) == Some(ContBegin(r, mounts))
               else if sh.pods[r].booted then n + 1 == |log| && Passes(e, StateLock(r))
               else Nth(log, n + 1) == Some(Provision(ImageBoot(r, mounts)))
  {
    MadeAt(t, log, n);
    Front(log[n].next);
    assert Linked(log, n);
    var e := log[n];
    assert Exec(e.before, t, e.action, e.oracle) == ReadStep(e.before, e.action, e.oracle);
  }

  /** The last thing CreateContainer does is to add the log path. */
  ghost predicate EndsWithLogPath(r: nat, log: seq<Entry>) { |log| > 0 && Passes(log[|log| - 1], StateLock(r)) }

  lemma OneMount(t: nat, r: nat, c: nat, mounts: seq<string>, log: seq<Entry>) returns (n: nat)
    requires Course(t, Some(MountNext(r, c, mounts)), log) && mounts != []
    ensures 0 < n < |log| && MountTurn(MountNext(r, c, mounts), log[..n])
    ensures log[n].action == MountNext(r, c, mounts[1..])
  {
    var next := Some(MountNext(r, c, mounts));
    MountAt(t, next, log, 0);
    MountAt(t, next, log, 1);
    n := 2;
    if mounts[0] !in log[1].before.datas[log[1].action.data].alloc.attached {
      n := AttachRuns(t, next, log, 2);
    }
  }

  /** The mount loop runs to the end of the log. */
  lemma {:induction false} MountRuns(t: nat, r: nat, c: nat, mounts: seq<string>, log: seq<Entry>)
    requires Course(t, Some(MountNext(r, c, mounts)), log)
    ensures MountAttaches(r, c, mounts, log) && EndsWithLogPath(r, log)
    decreases |mounts|
  {
    if mounts == [] {
      MountAt(t, Some(MountNext(r, c, mounts)), log, 0);
    } else {
      var n := OneMount(t, r, c, mounts, log);
      Suffix(t, Some(MountNext(r, c, mounts)), log, n);
      MountRuns(t, r, c, mounts[1..], log[n..]);
      MountCons(r, c, mounts, log, n);
      SameEnd(r, log, n);
    }
  }

  lemma MountCons(r: nat, c: nat, mounts: seq<string>, log: seq<Entry>, n: nat)
    requires mounts != [] && 0 < n <= |log| && MountTurn(MountNext(r, c, mounts), log[..n])
    requires MountAttaches(r, c, mounts[1..], log[n..])
    ensures MountAttaches(r, c, mounts, log)
  {
  }

  lemma SameEnd(r: nat, log: seq<Entry>, n: nat)
    requires n < |log| && EndsWithLogPath(r, log[n..])
    ensures EndsWithLogPath(r, log)
  {
    assert log[|log| - 1] == log[n..][|log| - n - 1];
  }

  lemma ContRuns(t: nat, next: Option<Action>, log: seq<Entry>, k: nat)
    requires Course(t, next, log) && k < |log| && log[k].action.ContBegin?
    ensures var a := log[k].action; ContCourse(a.pod, a.mounts, log[k..]) && EndsWithLogPath(a.pod, log)
  {
    MountAt(t, next, log, k);
    var client := log[k].before.pods[log[k].action.pod].client;
    if client.Some? {
      Suffix(t, next, log, k + 1);
      MountRuns(t, log[k].action.pod, client.value, log[k].action.mounts, log[k + 1..]);
      SameEnd(log[k].action.pod, log, k + 1);
      assert log[k..][1..] == log[k + 1..];
    }
  }

  lemma ImageRuns(t: nat, job: Job, log: seq<Entry>)
    requires Course(t, Some(Provision(job)), log) && job.ImageBoot?
    ensures ImageCourse(job.pod, job.mounts, log) && EndsWithLogPath(job.pod, log)
  {
    var next := Some(Provision(job));
    ProvisionAt(t, next, log, 0);
    if log[0].oracle.ok {
      var n := BootRuns(t, next, log, 1);
      AttachNextAt(t, next, log, n);
      ContRuns(t, next, log, n + 1);
      BootMakesImage(job, log, n);
    }
  }

  lemma BootMakesImage(job: Job, log: seq<Entry>, n: nat)
    requires 0 < n < |log| && job.ImageBoot? && log[0].action == Provision(job)
    requires var sh := log[0].before;
             && WellFormed(sh) && job.pod < |sh.pods| && log[n].action == AttachNext(|sh.datas|, sh.clients, [], job)
             && BootAttaches(|sh.datas|, sh.clients, sh.datas[sh.pods[job.pod].data].volumes, job, log[1..n])
    requires log[0].oracle.ok && ContCourse(job.pod, job.mounts, log[n + 1..])
    ensures ImageCourse(job.pod, job.mounts, log)
  {
    var sh := log[0].before;
    assert BootsAt(sh, job, sh.datas[sh.pods[job.pod].data].volumes, log, n);
  }

  lemma CreateRuns(t: nat, id: string, mounts: seq<string>, log: seq<Entry>)
    requires Course(t, Some(Lookup(id, ForCreate(mounts))), log)
    ensures CreateCourse(id, mounts, log)
  {
    var next := Some(Lookup(id, ForCreate(mounts)));
    LookupAt(t, next, log);
    if Found(log[0]) {
      PreCreateAt(t, next, log, 1);
      var sh, r := log[1].before, log[1].action.pod;
      if !sh.imagePod { ContRuns(t, next, log, 2); }
      else if !sh.pods[r].booted {
        Suffix(t, next, log, 2);
        ImageRuns(t, ImageBoot(r, mounts), log[2..]);
        SameEnd(r, log, 2);
      }
    }
  }

  lemma LookAt(t: nat, next: Option<Action>, log: seq<Entry>, n: nat)
    requires Course(t, next, log) && n < |log|
    requires log[n].action.StatusBody? || log[n].action.CallBody?
    ensures var e, r := log[n], log[n].action.pod;
            && e.after == e.before && n + 1 == |log| && r < |e.before.pods|
            && (e.action.CallBody? && e.before.pods[r].client.Some? ==>
                  Passes(e, ContLock(e.before.pods[r].client.value)))
  {
    MadeAt(t, log, n);
    Front(log[n].next);
    assert Linked(log, n);
    var e := log[n];
    assert Exec(e.before, t, e.action, e.oracle) == ReadStep(e.before, e.action, e.oracle);
  }

  lemma ListAt(t: nat, next: Option<Action>, log: seq<Entry>, n: nat)
    requires Course(t, next, log) && n < |log|
    requires log[n].action.CopyMap? || log[n].action.ListNext? || log[n].action.Visit?
    ensures var e := log[n];
            && e.after == e.before
            && match e.action
               case CopyMap(containers) =>
                 && (forall r :: r in e.oracle.order <==> r in e.before.vmMap.Values)
                 && Nth(log, n + 1) == Some(ListNext(e.oracle.order, containers))
               case ListNext(refs, containers) =>
                 Nth(log, n + 1) == if refs == [] then None else Some(Visit(refs[0], refs[1..], containers))
               case Visit(r, refs, containers) =>
                 && Nth(log, n + 1) == Some(ListNext(refs, containers)) && r < |e.before.pods|
                 && (containers && e.before.pods[r].client.Some? ==> Passes(e, ContLock(e.before.pods[r].client.value)))
  {
    MadeAt(t, log, n);
    Front(log[n].next);
    assert Linked(log, n);
    var e := log[n];
    assert Exec(e.before, t, e.action, e.oracle) == ReadStep(e.before, e.action, e.oracle);
  }

  lemma StatusRuns(t: nat, id: string, log: seq<Entry>)
    requires Course(t, Some(Lookup(id, ForStatus)), log)
    ensures Handles(PodSandboxStatus(id), log)
  {
    LookupAt(t, Some(Lookup(id, ForStatus)), log);
    if Found(log[0]) { LookAt(t, Some(Lookup(id, ForStatus)), log, 1); }
  }

  lemma CallRuns(t: nat, id: string, log: seq<Entry>)
    requires Course(t, Some(Lookup(id, ForCall)), log)
    ensures CallCourse(id, log)
  {
    LookupAt(t, Some(Lookup(id, ForCall)), log);
    if Found(log[0]) { LookAt(t, Some(Lookup(id, ForCall)), log, 1); }
  }

  lemma {:induction false} VisitRuns(t: nat, next: Option<Action>, log: seq<Entry>, k: nat)
    requires Course(t, next, log) && k < |log| && log[k].action.ListNext?
    ensures Visits(log[k].action.refs, log[k].action.containers, log[k..])
    decreases |log[k].action.refs|
  {
    ListAt(t, next, log, k);
    if log[k].action.refs != [] {
      ListAt(t, next, log, k + 1);
      VisitRuns(t, next, log, k + 2);
      assert log[k..][2..] == log[k + 2..];
    }
  }

  lemma ListRuns(t: nat, containers: bool, log: seq<Entry>)
    requires Course(t, Some(CopyMap(containers)), log)
    ensures ListCourse(containers, log)
  {
    ListAt(t, Some(CopyMap(containers)), log, 0);
    VisitRuns(t, Some(CopyMap(containers)), log, 1);
  }

  lemma CourseHandles(t: nat, req: Request, log: seq<Entry>)
    requires Course(t, Tail(Start(req)), log)
    ensures Handles(req, log)
  {
    Front(Start(req));
    match req
    case RunPodSandbox(volumes) => RunRuns(t, volumes, log);
    case StopPodSandbox(id) => StopRuns(t, id, log);
    case RemovePodSandbox(id) => RemoveRuns(t, id, log);
    case PodSandboxStatus(id) => StatusRuns(t, id, log);
    case ListPodSandbox => ListRuns(t, false, log);
    case CreateContainer(id, mounts) => CreateRuns(t, id, mounts, log);
    case ContainerCall(id) => CallRuns(t, id, log);
    case ListContainers => ListRuns(t, true, log);
    case ReadLogPath(_) =>
    case ChangeMounts =>
  }

  /** The handler that arrived in step i as thread t, and has returned by step j. */
  ghost predicate Serves(ss: seq<State>, cs: seq<Choice>, i: nat, j: nat, t: nat)
    requires |ss| == |cs| + 1
  {
    i < j <= |cs| && cs[i].Spawn? && t == |ss[i].threads| && Returned(ss[j], t)
  }

  /** In any interleaving a handler that has returned did what its request asks for. */
  lemma RequestHandled(ss: seq<State>, cs: seq<Choice>, i: nat, j: nat, t: nat)
    requires Trace(ss, cs) && Serves(ss, cs, i, j, t)
    ensures Handles(cs[i].request, Log(ss, cs, i + 1, j, t))
  {
    ArrivalCourse(ss, cs, i, j, t);
    CourseHandles(t, cs[i].request, Log(ss, cs, i + 1, j, t));
  }

  lemma ArrivalCourse(ss: seq<State>, cs: seq<Choice>, i: nat, j: nat, t: nat)
    requires Trace(ss, cs) && Serves(ss, cs, i, j, t)
    ensures Course(t, Tail(Start(cs[i].request)), Log(ss, cs, i + 1, j, t))
    ensures ss[i + 1].shared == ss[i].shared && t < |ss[i + 1].threads|
  {
    assert Follows(ss, cs, i);
    CourseOf(ss, cs, i + 1, j, t);
  }

  /** The n-th access of a handler is that of step k. */
  ghost predicate IsNth(ss: seq<State>, cs: seq<Choice>, i: nat, j: nat, t: nat, n: nat, k: nat)
    requires |ss| == |cs| + 1
  {
    && i < k < j <= |cs| && n < |Log(ss, cs, i + 1, j, t)| && Steps(ss, cs, k, t)
    && Log(ss, cs, i + 1, j, t)[n] == EntryOf(ss, cs, k, t)
    && Log(ss, cs, i + 1, j, t)[n + 1..] == Log(ss, cs, k + 1, j, t)
  }

  lemma StepOfNth(ss: seq<State>, cs: seq<Choice>, i: nat, j: nat, t: nat, n: nat) returns (k: nat)
    requires |ss| == |cs| + 1 && i < j <= |cs| && n < |Log(ss, cs, i + 1, j, t)|
    ensures IsNth(ss, cs, i, j, t, n, k)
  {
    k := StepOf(ss, cs, i + 1, j, t, n);
  }

  lemma LaterNth(ss: seq<State>, cs: seq<Choice>, i: nat, j: nat, t: nat, n: nat, k: nat, m: nat) returns (l: nat)
    requires |ss| == |cs| + 1 && IsNth(ss, cs, i, j, t, n, k) && n < m < |Log(ss, cs, i + 1, j, t)|
    ensures k < l && IsNth(ss, cs, i, j, t, m, l)
  {
    var log := Log(ss, cs, i + 1, j, t);
    l := StepOf(ss, cs, k + 1, j, t, m - n - 1);
    assert log[m] == log[n + 1..][m - n - 1] && log[m + 1..] == log[n + 1..][m - n..];
  }

  /** A returned StopPodSandbox either found no pod, no client or no list of containers, or has marked the pod it
      found as stopped and after that emptied the volumes of its providerData. */
  lemma StopIsCarriedOut(ss: seq<State>, cs: seq<Choice>, i: nat, j: nat, t: nat, id: string)
    requires Trace(ss, cs) && Serves(ss, cs, i, j, t) && cs[i].request == StopPodSandbox(id)
    ensures exists k :: i < k < j && Accesses(ss[k], cs[k], t, Lookup(id, ForStop))
              && (id in ss[k].shared.vmMap ==> StopsFound(ss, cs, k, j, t, ss[k].shared.vmMap[id]))
  {
    RequestHandled(ss, cs, i, j, t);
    var log := Log(ss, cs, i + 1, j, t);
    var k := StepOfNth(ss, cs, i, j, t, 0);
    if id in ss[k].shared.vmMap { FoundIsStopped(ss, cs, i, j, t, id, k); }
  }

  /** What thread t does with the pod r it found in step k. */
  ghost predicate StopsFound(ss: seq<State>, cs: seq<Choice>, k: nat, j: nat, t: nat, r: nat)
    requires |ss| == |cs| + 1 && j <= |cs|
  {
    exists l :: k < l < j && Accesses(ss[l], cs[l], t, StopBegin(r)) && r < |ss[l].shared.pods|
      && (ss[l].shared.pods[r].client.Some? && cs[l].Run? && cs[l].oracle.ok ==> StopsAndDetaches(ss, cs, l, j, t, r))
  }

  ghost predicate StopsAndDetaches(ss: seq<State>, cs: seq<Choice>, l: nat, j: nat, t: nat, r: nat)
    requires |ss| == |cs| + 1 && j <= |cs|
  {
    exists m, n :: l < m < n < j && Stops(ss[m], cs[m], r) && r < |ss[m].shared.pods|
      && var d := ss[m].shared.pods[r].data;
         && d < |ss[n + 1].shared.datas|
         && Accesses(ss[n], cs[n], t, DetachAll(r, d)) && ss[n + 1].shared.datas[d].volumes == []
  }

  lemma FoundIsStopped(ss: seq<State>, cs: seq<Choice>, i: nat, j: nat, t: nat, id: string, k: nat)
    requires Trace(ss, cs) && Serves(ss, cs, i, j, t) && StopCourse(id, Log(ss, cs, i + 1, j, t))
    requires IsNth(ss, cs, i, j, t, 0, k) && id in ss[k].shared.vmMap
    ensures StopsFound(ss, cs, k, j, t, ss[k].shared.vmMap[id])
  {
    var log, r := Log(ss, cs, i + 1, j, t), ss[k].shared.vmMap[id];
    var l := LaterNth(ss, cs, i, j, t, 0, k, 1);
    assert Accesses(ss[l], cs[l], t, StopBegin(r));
    if ss[l].shared.pods[r].client.Some? && cs[l].oracle.ok { BegunIsStopped(ss, cs, i, j, t, id, r, l); }
  }

  lemma BegunIsStopped(ss: seq<State>, cs: seq<Choice>, i: nat, j: nat, t: nat, id: string, r: nat, l: nat)
    requires Trace(ss, cs) && Serves(ss, cs, i, j, t) && IsNth(ss, cs, i, j, t, 1, l)
    requires r < |ss[l].shared.pods| && ss[l].shared.pods[r].client.Some?
    requires StopLoopCourse(r, ss[l].shared.pods[r].client.value, cs[l].oracle.count, Log(ss, cs, i + 1, j, t)[2..])
    ensures StopsAndDetaches(ss, cs, l, j, t, r)
  {
    var log, left := Log(ss, cs, i + 1, j, t), cs[l].oracle.count;
    assert log[2..][left] == log[left + 2] && log[2..][left + 1] == log[left + 3];
    var m := LaterNth(ss, cs, i, j, t, 1, l, left + 2);
    var n := LaterNth(ss, cs, i, j, t, left + 2, m, left + 3);
    assert Accesses(ss[m], cs[m], t, StopLoop(r, ss[l].shared.pods[r].client.value, 0));
    DetachEmpties(ss, cs, i, j, t, left + 3, n);
  }

  lemma DetachEmpties(ss: seq<State>, cs: seq<Choice>, i: nat, j: nat, t: nat, q: nat, n: nat)
    requires Trace(ss, cs) && Serves(ss, cs, i, j, t) && IsNth(ss, cs, i, j, t, q, n)
    requires Log(ss, cs, i + 1, j, t)[q].action.DetachAll?
    ensures var d := Log(ss, cs, i + 1, j, t)[q].action.data;
            d < |ss[n + 1].shared.datas| && ss[n + 1].shared.datas[d].volumes == []
  {
    ArrivalCourse(ss, cs, i, j, t);
    DetachAllAt(t, Tail(Start(cs[i].request)), Log(ss, cs, i + 1, j, t), q);
  }

  /** A returned RemovePodSandbox either found no pod or could not destroy its VM, or has taken the pod's client and
      then given its address back and then deleted the entry. */
  lemma RemovalIsCarriedOut(ss: seq<State>, cs: seq<Choice>, i: nat, j: nat, t: nat, id: string)
    requires Trace(ss, cs) && Serves(ss, cs, i, j, t) && cs[i].request == RemovePodSandbox(id)
    ensures exists k :: i < k < j && Accesses(ss[k], cs[k], t, Lookup(id, ForRemove))
              && (id in ss[k].shared.vmMap ==> RemovesFound(ss, cs, k, j, t, ss[k].shared.vmMap[id]))
  {
    RequestHandled(ss, cs, i, j, t);
    var k := StepOfNth(ss, cs, i, j, t, 0);
    if id in ss[k].shared.vmMap { BeginsToRemove(ss, cs, i, j, t, id, k); }
  }

  lemma BeginsToRemove(ss: seq<State>, cs: seq<Choice>, i: nat, j: nat, t: nat, id: string, k: nat)
    requires |ss| == |cs| + 1 && Serves(ss, cs, i, j, t) && RemoveCourse(id, Log(ss, cs, i + 1, j, t))
    requires IsNth(ss, cs, i, j, t, 0, k) && id in ss[k].shared.vmMap
    ensures RemovesFound(ss, cs, k, j, t, ss[k].shared.vmMap[id])
  {
    var l := LaterNth(ss, cs, i, j, t, 0, k, 1);
    FoundIsRemoved(ss, cs, i, j, t, ss[k].shared.vmMap[id], l);
  }

  lemma FoundIsRemoved(ss: seq<State>, cs: seq<Choice>, i: nat, j: nat, t: nat, r: nat, l: nat)
    requires |ss| == |cs| + 1 && Serves(ss, cs, i, j, t) && IsNth(ss, cs, i, j, t, 1, l)
    requires Accesses(ss[l], cs[l], t, RemoveBody(r)) && r < |ss[l].shared.pods|
    requires var log := Log(ss, cs, i + 1, j, t);
             (ss[l].shared.pods[r].booted ==> cs[l].oracle.ok) ==>
               && ss[l].shared.pods[r].client.Some? && |log| == 4 && log[2].action == Release(r)
               && log[3].action.Delete? && log[3].action.pod == r
    ensures ReleasesFrom(ss, cs, l, j, t, r)
  {
    if ss[l].shared.pods[r].booted ==> cs[l].oracle.ok {
      var m := LaterNth(ss, cs, i, j, t, 1, l, 2);
      var n := LaterNth(ss, cs, i, j, t, 2, m, 3);
      assert Removes(ss[l], cs[l], r) && Accesses(ss[m], cs[m], t, Release(r));
      assert Accesses(ss[n], cs[n], t, ss[n].threads[t].code.action);
      assert Deletes(ss, cs, n, t, r);
    }
  }

  /** If the VM is destroyed or there is none, step l takes the client, and thread t releases and deletes after it. */
  ghost predicate ReleasesFrom(ss: seq<State>, cs: seq<Choice>, l: nat, j: nat, t: nat, r: nat)
    requires |ss| == |cs| + 1 && l < j <= |cs|
  {
    r < |ss[l].shared.pods| && ((ss[l].shared.pods[r].booted ==> cs[l].Run? && cs[l].oracle.ok) ==>
      && Removes(ss[l], cs[l], r)
      && exists m, n :: l < m < n < j && Accesses(ss[m], cs[m], t, Release(r)) && Deletes(ss, cs, n, t, r))
  }

  ghost predicate RemovesFound(ss: seq<State>, cs: seq<Choice>, k: nat, j: nat, t: nat, r: nat)
    requires |ss| == |cs| + 1 && j <= |cs|
  {
    exists l :: k < l < j && Accesses(ss[l], cs[l], t, RemoveBody(r)) && ReleasesFrom(ss, cs, l, j, t, r)
  }

  ghost predicate Deletes(ss: seq<State>, cs: seq<Choice>, n: nat, t: nat, r: nat)
    requires |ss| == |cs| + 1 && n < |cs|
  {
    exists a :: Accesses(ss[n], cs[n], t, a) && a.Delete? && a.pod == r
  }
}
