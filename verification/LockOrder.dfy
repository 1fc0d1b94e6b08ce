/** The lock discipline: every handler takes its locks in strictly increasing rank, releases all of them,
    and reaches each access to shared data with exactly the locks of HeldAt. Hence locks exclude, and no
    set of handlers waits in a cycle. */
module LockOrder {
  import opened Wrappers
  import opened EbsDevices
  import opened Protocol

  ghost predicate Above(l: Lock, held: seq<Hold>) {
    forall h | h in held :: Rank(h.lock) < Rank(l)
  }

  /** Code that starts with the locks held and keeps to the discipline up to its end or next access. */
  ghost predicate Disciplined(held: seq<Hold>, code: Code)
    decreases code
  {
    match code
    case Done => held == []
    case RLock(l, next) => Above(l, held) && Disciplined(held + [Hold(l, Reader)], next)
    case WLock(l, next) => Above(l, held) && Disciplined(held + [Hold(l, Writer)], next)
    case Unlock(next) => held != [] && Disciplined(held[..|held| - 1], next)
    case Do(a) => held == HeldAt(a)
  }

  /** The locks a thread holds in full, without one it is still waiting for. */
  function Granted(th: Thread): seq<Hold> {
    if IsPending(th) then th.held[..|th.held| - 1] else th.held
  }

  ghost predicate ThreadOk(th: Thread) {
    && (forall h | h in Granted(th) :: !h.mode.Pending?)
    && Disciplined(Granted(th), th.code)
    && (IsPending(th) ==> th.code.WLock? && th.held[|th.held| - 1].lock == th.code.lock)
  }

  ghost predicate Writes(s: State, t: nat, l: Lock) {
    t < |s.threads| && Hold(l, Writer) in s.threads[t].held
  }

  ghost predicate Excludes(s: State) {
    && (forall i: nat, j: nat, l | i != j && Slot(s, i, l) :: !Slot(s, j, l))
    && (forall i: nat, j: nat, l | i != j && Writes(s, i, l) :: !Reads(s, j, l))
  }

  ghost predicate LockInv(s: State) {
    && (forall i | 0 <= i < |s.threads| :: ThreadOk(s.threads[i]))
    && Excludes(s)
  }

  // ---------- Every access resumes disciplined code ----------

  lemma StartDisciplined(req: Request)
    ensures Disciplined([], Start(req))
  {
    match req
    case RunPodSandbox(volumes) => assert Disciplined([Hold(DequeLock, Writer)], Do(Shift(volumes)));
    case ReadLogPath(r) => assert Disciplined([Hold(StateLock(r), Reader)], Unlock(Done));
    case ChangeMounts => assert Disciplined([Hold(MountLock, Writer)], Unlock(Done));
    case StopPodSandbox(id) => assert Disciplined([Hold(VmMapLock, Reader)], Do(Lookup(id, ForStop)));
    case RemovePodSandbox(id) => assert Disciplined([Hold(VmMapLock, Reader)], Do(Lookup(id, ForRemove)));
    case PodSandboxStatus(id) => assert Disciplined([Hold(VmMapLock, Reader)], Do(Lookup(id, ForStatus)));
    case CreateContainer(id, mounts) =>
      assert Disciplined([Hold(VmMapLock, Reader)], Do(Lookup(id, ForCreate(mounts))));
    case ContainerCall(id) => assert Disciplined([Hold(VmMapLock, Reader)], Do(Lookup(id, ForCall)));
    case ListPodSandbox => assert Disciplined([Hold(VmMapLock, Reader)], Do(CopyMap(false)));
    case ListContainers => assert Disciplined([Hold(VmMapLock, Reader)], Do(CopyMap(true)));
  }

  lemma EnterDisciplined(purpose: Purpose, r: nat)
    ensures Disciplined([], Enter(purpose, r))
  {
    match purpose
    case ForStop => assert Disciplined([Hold(StateLock(r), Writer)], Do(StopBegin(r)));
    case ForRemove => assert Disciplined([Hold(StateLock(r), Writer)], Do(RemoveBody(r)));
    case ForStatus => assert Disciplined([Hold(StateLock(r), Reader)], Do(StatusBody(r)));
    case ForCall => assert Disciplined([Hold(StateLock(r), Reader)], Do(CallBody(r)));
    case ForCreate(mounts) =>
      var held := [Hold(StateLock(r), Reader)];
      assert held + [Hold(BootLock(r), Writer)] == HeldAt(PreCreate(r, mounts));
      assert Disciplined(held + [Hold(BootLock(r), Writer)], Do(PreCreate(r, mounts)));
      assert Disciplined(held, WLock(BootLock(r), Do(PreCreate(r, mounts))));
  }

  /** Taking the top lock off. */
  lemma Pop(held: seq<Hold>, h: Hold, next: Code)
    ensures Disciplined(held + [h], Unlock(next)) <==> Disciplined(held, next)
  {
    assert (held + [h])[..|held + [h]| - 1] == held;
  }

  lemma PopOnly(h: Hold, next: Code)
    ensures Disciplined([h], Unlock(next)) <==> Disciplined([], next)
  {
    assert [] + [h] == [h];
    Pop([], h, next);
  }

  lemma LogPathDisciplined(r: nat)
    ensures Disciplined([], LogPath(r))
  {
    PopOnly(Hold(StateLock(r), Writer), Done);
  }

  /** Locking a container provider (or nothing else) around nothing. */
  lemma Bracket(held: seq<Hold>, l: Lock, next: Code)
    requires Above(l, held)
    ensures Disciplined(held, WLock(l, Unlock(next))) <==> Disciplined(held, next)
  {
    Pop(held, Hold(l, Writer), next);
  }

  /** Leaving PreCreateContainer. */
  lemma LeaveBoot(r: nat, next: Code)
    ensures Disciplined([Hold(StateLock(r), Reader), Hold(BootLock(r), Writer)], Unlock(Unlock(next)))
            <==> Disciplined([], next)
  {
    var top := [Hold(StateLock(r), Reader)];
    PopOnly(Hold(StateLock(r), Reader), next);
    Pop(top, Hold(BootLock(r), Writer), Unlock(next));
    assert top + [Hold(BootLock(r), Writer)] == [Hold(StateLock(r), Reader), Hold(BootLock(r), Writer)];
  }

  /** Leaving two write locks, the state lock underneath. */
  lemma LeaveTwo(r: nat, l: Lock, next: Code)
    ensures Disciplined([Hold(StateLock(r), Writer), Hold(l, Writer)], Unlock(next))
            <==> Disciplined([Hold(StateLock(r), Writer)], next)
    ensures Disciplined([Hold(StateLock(r), Writer)], Unlock(Done))
    ensures Disciplined([Hold(StateLock(r), Reader)], Unlock(Done))
  {
    var top := [Hold(StateLock(r), Writer)];
    PopOnly(Hold(StateLock(r), Writer), Done);
    PopOnly(Hold(StateLock(r), Reader), Done);
    Pop(top, Hold(l, Writer), next);
    assert top + [Hold(l, Writer)] == [Hold(StateLock(r), Writer), Hold(l, Writer)];
  }

  lemma ResumeDisciplined(loop: Loop, d: nat)
    ensures Disciplined(LoopHeld(loop) + [Hold(DataLock(d), Writer)], Unlock(Resume(loop)))
  {
    var next := Resume(loop);
    assert next.Do? && HeldAt(next.action) == LoopHeld(loop);
    Pop(LoopHeld(loop), Hold(DataLock(d), Writer), next);
  }

  lemma ContBeginDisciplined(r: nat, mounts: seq<string>)
    ensures Disciplined([], RLock(StateLock(r), Do(ContBegin(r, mounts))))
  {
    assert Disciplined([Hold(StateLock(r), Reader)], Do(ContBegin(r, mounts)));
  }

  lemma InsertDisciplined(r: nat)
    ensures Disciplined([], WLock(VmMapLock, Do(Insert(r))))
  {
    assert Disciplined([Hold(VmMapLock, Writer)], Do(Insert(r)));
  }

  lemma RunDisciplined(sh: Shared, t: nat, a: Action)
    requires IsRun(a) && Refs(sh, a)
    ensures var (sh', code) := RunStep(sh, t, a);
            sh'.panicked.Some? || Disciplined(HeldAt(a), code)
  {
    match a
    case Shift(_) =>
      if sh.pool != [] { PopOnly(Hold(DequeLock, Writer), RunStep(sh, t, a).1.next); }
    case Launch(_, _) => InsertDisciplined(|sh.pods|);
    case Insert(_) => PopOnly(Hold(VmMapLock, Writer), Done);
  }

  lemma BootDisciplined(sh: Shared, a: Action, o: Oracle)
    requires IsBoot(a) && WellFormed(sh) && Refs(sh, a)
    ensures Disciplined(HeldAt(a), BootStep(sh, a, o).1)
  {
    match a
    case Provision(job) =>
      if job.ImageBoot? {
        LogPathDisciplined(job.pod);
        LeaveBoot(job.pod, LogPath(job.pod));
      }
    case AttachNext(d, c, rest, job) =>
      if rest != [] {
        var next := Do(DecideAttach(d, rest[0].volume, rest[0].device, BootLoop(d, c, rest[1..], job)));
        assert Disciplined(JobHeld(job) + [Hold(DataLock(d), Writer)], next);
      } else if job.NewPod? {
        InsertDisciplined(|sh.pods|);
      } else {
        ContBeginDisciplined(job.pod, job.mounts);
        LeaveBoot(job.pod, RLock(StateLock(job.pod), Do(ContBegin(job.pod, job.mounts))));
      }
  }

  lemma StopDisciplined(sh: Shared, a: Action, o: Oracle)
    requires IsStop(a) && WellFormed(sh) && Refs(sh, a)
    ensures var (sh', code) := StopStep(sh, a, o);
            sh'.panicked.Some? || Disciplined(HeldAt(a), code)
  {
    var r := a.pod;
    var held := [Hold(StateLock(r), Writer)];
    LeaveTwo(r, VmMapLock, Done);
    match a
    case StopBegin(_) =>
      if sh.pods[r].client.Some? {
        var c := sh.pods[r].client.value;
        Bracket(held, ContLock(c), if o.ok then Do(StopLoop(r, c, o.count)) else Unlock(Done));
      }
    case StopLoop(_, c, left) =>
      if left > 0 {
        Bracket(held, ContLock(c), Do(StopLoop(r, c, left - 1)));
      } else {
        var d := sh.pods[r].data;
        assert held + [Hold(DataLock(d), Writer)] == HeldAt(DetachAll(r, d));
        assert Disciplined(held + [Hold(DataLock(d), Writer)], Do(DetachAll(r, d)));
      }
    case DetachAll(_, d) => LeaveTwo(r, DataLock(d), Unlock(Done));
  }

  lemma RemoveDisciplined(sh: Shared, a: Action, o: Oracle)
    requires IsRemove(a) && Refs(sh, a)
    ensures var (sh', code) := RemoveStep(sh, a, o);
            sh'.panicked.Some? || Disciplined(HeldAt(a), code)
  {
    var r := a.pod;
    var held := [Hold(StateLock(r), Writer)];
    LeaveTwo(r, VmMapLock, Done);
    match a
    case RemoveBody(_) =>
      assert held + [Hold(DequeLock, Writer)] == HeldAt(Release(r));
      assert Disciplined(held + [Hold(DequeLock, Writer)], Do(Release(r)));
    case Release(_) =>
      var last := Delete(r, |sh.pool|, sh.shifts);
      assert held + [Hold(VmMapLock, Writer)] == HeldAt(last);
      assert Disciplined(held + [Hold(VmMapLock, Writer)], Do(last));
      assert Disciplined(held, WLock(VmMapLock, Do(last)));
      LeaveTwo(r, DequeLock, WLock(VmMapLock, Do(last)));
    case Delete(_, _, _) => LeaveTwo(r, VmMapLock, Unlock(Done));
  }

  lemma VisitDisciplined(r: nat, client: Option<nat>, refs: seq<nat>, containers: bool)
    ensures Disciplined([Hold(StateLock(r), Reader)], Unlock(Do(ListNext(refs, containers))))
    ensures client.Some? ==> Disciplined([Hold(StateLock(r), Reader)],
                                         WLock(ContLock(client.value), Unlock(Unlock(Do(ListNext(refs, containers))))))
  {
    var next := Do(ListNext(refs, containers));
    PopOnly(Hold(StateLock(r), Reader), next);
    if client.Some? {
      Bracket([Hold(StateLock(r), Reader)], ContLock(client.value), Unlock(next));
    }
  }

  lemma MountNextDisciplined(r: nat, c: nat, d: nat, mounts: seq<string>)
    ensures Disciplined([Hold(StateLock(r), Reader)], WLock(ContLock(c), Unlock(Unlock(LogPath(r)))))
    ensures Disciplined([Hold(StateLock(r), Reader)], Unlock(LogPath(r)))
    ensures mounts != [] ==> Disciplined([Hold(StateLock(r), Reader)],
                                         WLock(DataLock(d), Do(NeedMount(r, c, d, mounts[0], mounts[1..]))))
  {
    var held := [Hold(StateLock(r), Reader)];
    LogPathDisciplined(r);
    PopOnly(Hold(StateLock(r), Reader), LogPath(r));
    Bracket(held, ContLock(c), Unlock(LogPath(r)));
    if mounts != [] {
      var next := NeedMount(r, c, d, mounts[0], mounts[1..]);
      assert held + [Hold(DataLock(d), Writer)] == HeldAt(next);
      assert Disciplined(held + [Hold(DataLock(d), Writer)], Do(next));
    }
  }

  lemma NeedMountDisciplined(r: nat, c: nat, d: nat, vol: string, mounts: seq<string>)
    ensures Disciplined(HeldAt(NeedMount(r, c, d, vol, mounts)), Unlock(Do(MountNext(r, c, mounts))))
    ensures Disciplined(HeldAt(NeedMount(r, c, d, vol, mounts)),
                        Unlock(WLock(DataLock(d), Do(DecideAttach(d, vol, "", MountLoop(r, c, mounts))))))
  {
    var held := [Hold(StateLock(r), Reader)];
    assert held + [Hold(DataLock(d), Writer)] == HeldAt(NeedMount(r, c, d, vol, mounts));
    Pop(held, Hold(DataLock(d), Writer), Do(MountNext(r, c, mounts)));
    var again := DecideAttach(d, vol, "", MountLoop(r, c, mounts));
    assert Disciplined(held + [Hold(DataLock(d), Writer)], Do(again));
    assert Disciplined(held, WLock(DataLock(d), Do(again)));
    Pop(held, Hold(DataLock(d), Writer), WLock(DataLock(d), Do(again)));
  }

  lemma LookupDisciplined(found: Option<nat>, purpose: Purpose)
    ensures Disciplined([Hold(VmMapLock, Reader)], Unlock(if found.Some? then Enter(purpose, found.value) else Done))
  {
    var next := if found.Some? then Enter(purpose, found.value) else Done;
    if found.Some? { EnterDisciplined(purpose, found.value); }
    PopOnly(Hold(VmMapLock, Reader), next);
  }

  lemma PreCreateDisciplined(r: nat, mounts: seq<string>)
    ensures Disciplined(HeldAt(PreCreate(r, mounts)), Unlock(Unlock(RLock(StateLock(r), Do(ContBegin(r, mounts))))))
    ensures Disciplined(HeldAt(PreCreate(r, mounts)), Unlock(Unlock(LogPath(r))))
  {
    LogPathDisciplined(r);
    ContBeginDisciplined(r, mounts);
    LeaveBoot(r, LogPath(r));
    LeaveBoot(r, RLock(StateLock(r), Do(ContBegin(r, mounts))));
  }

  lemma CallDisciplined(r: nat, client: Option<nat>)
    ensures Disciplined([Hold(StateLock(r), Reader)], Unlock(Done))
    ensures client.Some? ==> Disciplined([Hold(StateLock(r), Reader)],
                                         WLock(ContLock(client.value), Unlock(Unlock(Done))))
  {
    LeaveTwo(r, VmMapLock, Done);
    if client.Some? { Bracket([Hold(StateLock(r), Reader)], ContLock(client.value), Unlock(Done)); }
  }

  predicate IsLook(a: Action) { a.Lookup? || a.StatusBody? || a.CopyMap? || a.ListNext? || a.Visit? }

  lemma LookDisciplined(sh: Shared, a: Action, o: Oracle)
    requires IsLook(a) && WellFormed(sh) && Refs(sh, a)
    ensures var (sh', code) := ReadStep(sh, a, o);
            sh'.panicked.Some? || Disciplined(HeldAt(a), code)
  {
    match a
    case Lookup(id, purpose) =>
      LookupDisciplined(if id in sh.vmMap && (purpose.ForCreate? ==> o.ok) then Some(sh.vmMap[id]) else None, purpose);
    case StatusBody(r) => LeaveTwo(r, VmMapLock, Done);
    case CopyMap(containers) => PopOnly(Hold(VmMapLock, Reader), Do(ListNext(o.order, containers)));
    case ListNext(refs, containers) =>
      if refs != [] {
        assert Disciplined([Hold(StateLock(refs[0]), Reader)], Do(Visit(refs[0], refs[1..], containers)));
      }
    case Visit(r, refs, containers) => VisitDisciplined(r, sh.pods[r].client, refs, containers);
  }

  lemma ReadDisciplined(sh: Shared, a: Action, o: Oracle)
    requires !IsRun(a) && !IsBoot(a) && !IsAttach(a) && !IsStop(a) && !IsRemove(a) && !IsLook(a)
    requires WellFormed(sh) && Refs(sh, a)
    ensures Disciplined(HeldAt(a), ReadStep(sh, a, o).1)
  {
    match a
    case PreCreate(r, mounts) => PreCreateDisciplined(r, mounts);
    case ContBegin(r, mounts) => MountNextDisciplined(r, 0, 0, mounts);
    case MountNext(r, c, mounts) => MountNextDisciplined(r, c, sh.pods[r].data, mounts);
    case NeedMount(r, c, d, vol, mounts) => NeedMountDisciplined(r, c, d, vol, mounts);
    case CallBody(r) => CallDisciplined(r, sh.pods[r].client);
  }

  /** From any access, whatever the shared data and the environment's answers, the handler goes on with
      disciplined code (or the process is gone). */
  lemma ExecDisciplined(sh: Shared, t: nat, a: Action, o: Oracle)
    requires WellFormed(sh) && Refs(sh, a)
    ensures var (sh', code) := Exec(sh, t, a, o);
            sh'.panicked.Some? || Disciplined(HeldAt(a), code)
  {
    if IsRun(a) { RunDisciplined(sh, t, a); }
    else if IsBoot(a) { BootDisciplined(sh, a, o); }
    else if IsAttach(a) { ResumeDisciplined(a.loop, a.data); }
    else if IsStop(a) { StopDisciplined(sh, a, o); }
    else if IsRemove(a) { RemoveDisciplined(sh, a, o); }
    else if IsLook(a) { LookDisciplined(sh, a, o); }
    else { ReadDisciplined(sh, a, o); }
  }

  // ---------- Locks exclude in every reachable state ----------

  /** What a step changes in the holds of its thread. */
  lemma StepKeepsThreadOk(s: State, t: nat, o: Oracle)
    requires Enabled(s, Run(t, o)) && ThreadOk(s.threads[t])
    ensures var s' := Next(s, Run(t, o));
            s'.shared.panicked.Some? || ThreadOk(s'.threads[t])
  {
    var th := s.threads[t];
    match th.code
    case Do(a) => ExecDisciplined(s.shared, t, a, o);
    case RLock(l, next) =>
      assert IsPending(Next(s, Run(t, o)).threads[t]) == false;
    case WLock(l, next) =>
      var th' := Next(s, Run(t, o)).threads[t];
      if !IsPending(th) {
        assert Granted(th') == th.held;
      } else {
        assert Granted(th') == Granted(th) + [Hold(l, Writer)];
      }
    case Unlock(next) =>
      var th' := Next(s, Run(t, o)).threads[t];
      assert Granted(th) == th.held;
      assert forall h | h in th'.held :: h in th.held;
      assert !IsPending(th') by {
        if th'.held != [] { assert th'.held[|th'.held| - 1] in th.held; }
      }
  }

  /** A thread may exchange its holds for fewer, or for one new hold that no other thread's hold forbids. */
  lemma ExcludesWith(s: State, s': State, t: nat, extra: Hold)
    requires Excludes(s) && t < |s.threads| && |s'.threads| == |s.threads|
    requires forall u | 0 <= u < |s.threads| && u != t :: s'.threads[u] == s.threads[u]
    requires forall h | h in s'.threads[t].held :: h == extra || h in s.threads[t].held
    requires extra.mode != Writer ==> forall u: nat :: !Slot(s, u, extra.lock)
    requires extra.mode == Writer ==> Slot(s, t, extra.lock) && forall u: nat :: !Reads(s, u, extra.lock)
    ensures Excludes(s')
  {
    forall u: nat, l
      ensures u != t ==>
                && Slot(s', u, l) == Slot(s, u, l)
                && Reads(s', u, l) == Reads(s, u, l) && Writes(s', u, l) == Writes(s, u, l)
      ensures l != extra.lock ==>
                && (Slot(s', u, l) ==> Slot(s, u, l))
                && (Reads(s', u, l) ==> Reads(s, u, l)) && (Writes(s', u, l) ==> Writes(s, u, l))
    {
    }
    forall i: nat, j: nat, l | i != j && Writes(s', i, l) ensures !Reads(s', j, l) {
      assert Writes(s, i, l) ==> Slot(s, i, l);
    }
  }

  lemma ShedKeepsExcludes(s: State, s': State)
    requires Excludes(s)
    requires forall u, h | 0 <= u < |s'.threads| && h in s'.threads[u].held :: u < |s.threads| && h in s.threads[u].held
    ensures Excludes(s')
  {
    forall u: nat, l
      ensures (Slot(s', u, l) ==> Slot(s, u, l)) && (Reads(s', u, l) ==> Reads(s, u, l))
              && (Writes(s', u, l) ==> Writes(s, u, l))
    {
    }
  }

  lemma StepKeepsExcludes(s: State, ch: Choice)
    requires Enabled(s, ch) && LockInv(s)
    ensures Excludes(Next(s, ch))
  {
    var s' := Next(s, ch);
    if ch.Run? && (s.threads[ch.thread].code.RLock? || s.threads[ch.thread].code.WLock?) {
      var th := s.threads[ch.thread];
      var extra := Hold(th.code.lock, if th.code.RLock? then Reader else if IsPending(th) then Writer else Pending);
      assert forall u: nat :: !Blocks(s, u, ch.thread);
      if th.code.RLock? {
        assert forall u: nat :: Slot(s, u, extra.lock) ==> Blocks(s, u, ch.thread);
      } else if IsPending(th) {
        assert th.held[|th.held| - 1] == Hold(extra.lock, Pending);
        assert Slot(s, ch.thread, extra.lock);
        assert forall u: nat :: Reads(s, u, extra.lock) ==> Blocks(s, u, ch.thread);
      } else {
        assert forall u: nat :: Slot(s, u, extra.lock) ==> Blocks(s, u, ch.thread);
      }
      ExcludesWith(s, s', ch.thread, extra);
    } else {
      ShedKeepsExcludes(s, s');
    }
  }

  /** Locks exclude and every thread keeps to the discipline, in every state reached while the process lives. */
  lemma StepKeepsLockInv(s: State, ch: Choice)
    requires Enabled(s, ch) && LockInv(s)
    ensures Next(s, ch).shared.panicked.Some? || LockInv(Next(s, ch))
  {
    StepKeepsExcludes(s, ch);
    match ch
    case Spawn(req) => StartDisciplined(req);
    case Run(t, o) => StepKeepsThreadOk(s, t, o);
  }

  // ---------- No set of handlers waits in a cycle ----------

  /** How far up the lock order a thread's next lock is; a pending writer is past the writer's queue. */
  function Want(th: Thread): nat
    requires th.code.RLock? || th.code.WLock?
  {
    2 * Rank(th.code.lock) + if IsPending(th) then 1 else 0
  }

  /** Whoever blocks a thread wants something higher in the order, if it waits at all. */
  lemma BlockerWantsMore(s: State, u: nat, t: nat)
    requires LockInv(s) && t < |s.threads| && Blocks(s, u, t)
    ensures u < |s.threads| && !s.threads[u].code.Done?
    ensures s.threads[u].code.RLock? || s.threads[u].code.WLock? ==> Want(s.threads[t]) < Want(s.threads[u])
  {
    var l := s.threads[t].code.lock;
    var w := s.threads[u];
    assert ThreadOk(w);
    var mode :| Hold(l, mode) in w.held && (IsPending(s.threads[t]) ==> mode == Reader)
        && (mode == Reader ==> IsPending(s.threads[t]));
    if Hold(l, mode) in Granted(w) {
    } else {
      assert w.held[|w.held| - 1] == Hold(l, mode);
      assert mode == Pending;
    }
  }

  /** A thread of d whose next lock is highest. */
  lemma {:induction false} Highest(s: State, d: set<nat>) returns (t: nat)
    requires d != {}
    requires forall u | u in d :: u < |s.threads| && (s.threads[u].code.RLock? || s.threads[u].code.WLock?)
    ensures t in d && forall u | u in d :: Want(s.threads[u]) <= Want(s.threads[t])
    decreases d
  {
    t :| t in d;
    if d != {t} {
      var v := Highest(s, d - {t});
      if Want(s.threads[t]) < Want(s.threads[v]) { t := v; }
    }
  }

  /** Every thread of d waits for a thread of d. */
  ghost predicate Circle(s: State, d: set<nat>) {
    && d != {}
    && (forall t | t in d :: t < |s.threads|)
    && (forall t | t in d :: exists u :: u in d && Blocks(s, u, t))
  }

  /** Waiting leads upward: whoever blocks a thread is a thread not done, and if it waits, wants something higher. */
  ghost predicate Upward(s: State) {
    forall u: nat, t: nat | t < |s.threads| && Blocks(s, u, t) ::
      && u < |s.threads| && !s.threads[u].code.Done?
      && (s.threads[u].code.RLock? || s.threads[u].code.WLock? ==> Want(s.threads[t]) < Want(s.threads[u]))
  }

  lemma WaitsLeadUpward(s: State)
    requires LockInv(s)
    ensures Upward(s)
  {
    forall u: nat, t: nat | t < |s.threads| && Blocks(s, u, t)
      ensures u < |s.threads| && !s.threads[u].code.Done?
      ensures s.threads[u].code.RLock? || s.threads[u].code.WLock? ==> Want(s.threads[t]) < Want(s.threads[u])
    {
      BlockerWantsMore(s, u, t);
    }
  }

  lemma HighestWaitsForNone(s: State, d: set<nat>, t: nat)
    requires Upward(s) && t in d
    requires forall u | u in d :: u < |s.threads| && (s.threads[u].code.RLock? || s.threads[u].code.WLock?)
    requires forall u | u in d :: Want(s.threads[u]) <= Want(s.threads[t])
    ensures forall u | u in d :: !Blocks(s, u, t)
  {
  }

  lemma UpwardHasNoCircle(s: State, d: set<nat>)
    requires Upward(s)
    ensures !Circle(s, d)
  {
    if Circle(s, d) {
      forall t | t in d ensures s.threads[t].code.RLock? || s.threads[t].code.WLock? {
        var u :| u in d && Blocks(s, u, t);
      }
      var t := Highest(s, d);
      HighestWaitsForNone(s, d, t);
    }
  }

  lemma NoWaitCycle(s: State, d: set<nat>)
    requires LockInv(s)
    ensures !Circle(s, d)
  {
    WaitsLeadUpward(s);
    UpwardHasNoCircle(s, d);
  }

  predicate AllDone(s: State) { forall t | 0 <= t < |s.threads| :: s.threads[t].code.Done? }
}
