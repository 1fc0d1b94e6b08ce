/** At-most-once boot and at-most-once attach, whatever the interleaving. A fact about shared data that a
    handler establishes under a lock stays true while it holds that lock, because every other handler that
    could falsify it needs the same lock. */
module OnceOnly {
  import opened Wrappers
  import opened EbsDevices
  import opened Protocol
  import opened LockOrder

  /** The next access of a handler, if it has one before it ends. */
  function Tail(code: Code): Option<Action> {
    match code
    case Done => None
    case RLock(_, next) => Tail(next)
    case WLock(_, next) => Tail(next)
    case Unlock(next) => Tail(next)
    case Do(a) => Some(a)
  }

  /** The code takes lock l before its next access. */
  predicate Takes(code: Code, l: Lock) {
    match code
    case Done => false
    case RLock(k, next) => k == l || Takes(next, l)
    case WLock(k, next) => k == l || Takes(next, l)
    case Unlock(next) => Takes(next, l)
    case Do(_) => false
  }

  /** The boot an action is part of. */
  function JobOf(a: Action): Option<Job> {
    match a
    case Provision(job) => Some(job)
    case AttachNext(_, _, _, job) => Some(job)
    case DecideAttach(_, _, _, BootLoop(_, _, _, job)) => Some(job)
    case CloudAttach(_, _, _, BootLoop(_, _, _, job)) => Some(job)
    case _ => None
  }

  predicate BootsImage(a: Action) { JobOf(a).Some? && JobOf(a).value.ImageBoot? }

  function Booting(a: Action): nat
    requires BootsImage(a)
  {
    JobOf(a).value.pod
  }

  /** The last step of a boot of image pod r. */
  predicate BootEnd(a: Action, r: nat) { a.AttachNext? && a.rest == [] && a.job.ImageBoot? && a.job.pod == r }

  /** What may be relied on when a handler is on its way to access a. */
  ghost predicate Fact(sh: Shared, a: Action) {
    && Refs(sh, a)
    && (BootsImage(a) ==> sh.imagePod && Booting(a) < |sh.pods| && !sh.pods[Booting(a)].booted)
    && (JobOf(a).Some? && !a.Provision? ==> sh.datas[a.data].instance && sh.datas[a.data].maps)
    && (a.CloudAttach? ==> a.vol !in sh.datas[a.data].alloc.attached && Reserved(sh.datas[a.data].alloc, a.device))
  }

  /** The letter of the device is used, but by no attached volume. */
  ghost predicate Reserved(a: Allocator, device: string) {
    && device != "" && Letter(device) in a.used
    && forall v | v in a.attached :: a.attached[v] != "" && Letter(a.attached[v]) != Letter(device)
  }

  /** The locks that protect it, held from the moment it was established. */
  function Guards(a: Action): set<Hold> {
    (if BootsImage(a) then {Hold(StateLock(Booting(a)), Reader), Hold(BootLock(Booting(a)), Writer)} else {})
    + (if a.CloudAttach? then {Hold(DataLock(a.data), Writer)} else {})
    + (if a.Release? || a.Delete? then {Hold(StateLock(a.pod), Writer)} else {})
  }

  ghost predicate Guarded(code: Code) {
    Tail(code).Some? ==> forall h | h in Guards(Tail(code).value) :: !Takes(code, h.lock)
  }

  ghost predicate ThreadFact(sh: Shared, th: Thread) {
    && (Tail(th.code).Some? ==> Fact(sh, Tail(th.code).value))
    && Guarded(th.code)
  }

  /** The two logs of successes: every entry once, and exactly what the data structures record. */
  ghost predicate Sound(sh: Shared) {
    && WellFormed(sh)
    && NoDup(sh.attachLog)
    && (forall d: nat, v :: (d, v) in sh.attachLog <==> d < |sh.datas| && v in sh.datas[d].alloc.attached)
    && NoDup(sh.bootLog)
    && (forall r | r in sh.bootLog :: r < |sh.pods| && sh.pods[r].booted)
  }

  /** On every VM attached volumes are on devices with distinct last letters, all of them used. */
  ghost predicate AllConsistent(sh: Shared) { forall d | 0 <= d < |sh.datas| :: Consistent(sh.datas[d].alloc) }

  ghost predicate Once(s: State) {
    && Sound(s.shared) && AllConsistent(s.shared)
    && forall t | 0 <= t < |s.threads| :: ThreadFact(s.shared, s.threads[t])
  }

  // ---------- Who may change what ----------

  /** The only accesses that change fields of existing objects: the end of an image boot (booted, client and
      providerData of its pod), a removal (client), the end of a stop (ready), the insertion (listed), and an
      accepted cloud attach (attached). */
  ghost predicate Changes(sh: Shared, sh': Shared, a: Action) {
    && sh'.imagePod == sh.imagePod
    && |sh.pods| <= |sh'.pods| && |sh.datas| <= |sh'.datas|
    && (forall r | 0 <= r < |sh.pods| ::
          var p, p' := sh.pods[r], sh'.pods[r];
          if BootEnd(a, r) then p' == p.(booted := true, client := p'.client, data := p'.data) && p'.client.Some?
          else if a == RemoveBody(r) then p' == p || p' == p.(client := None)
          else if a.StopLoop? && a.pod == r then p' == p || p' == p.(ready := false)
          else if a == Insert(r) then p' == p.(listed := true)
          else p' == p)
    && (forall d | 0 <= d < |sh.datas| ::
          var x, x' := sh.datas[d], sh'.datas[d];
          && x'.maps == x.maps && x'.instance == x.instance && x.alloc.used <= x'.alloc.used
          && (!(a.CloudAttach? && a.data == d) ==> x'.alloc.attached == x.alloc.attached))
  }

  /** How the two logs grow: by an accepted attach of a volume, and by the end of an image boot. */
  ghost predicate LogsGrow(sh: Shared, sh': Shared, a: Action, ok: bool) {
    && |sh.datas| <= |sh'.datas|
    && (if a.CloudAttach? && ok then
          && a.data < |sh.datas|
          && sh'.attachLog == sh.attachLog + [(a.data, a.vol)]
          && sh'.datas[a.data].alloc.attached.Keys == sh.datas[a.data].alloc.attached.Keys + {a.vol}
        else
          && sh'.attachLog == sh.attachLog
          && (forall d | 0 <= d < |sh.datas| :: sh'.datas[d].alloc.attached == sh.datas[d].alloc.attached))
    && (forall d | |sh.datas| <= d < |sh'.datas| :: sh'.datas[d].alloc.attached == map[])
    && sh'.bootLog == sh.bootLog + (if a.AttachNext? && a.rest == [] && a.job.ImageBoot? then [a.job.pod] else [])
  }

  lemma RunChanges(sh: Shared, t: nat, a: Action)
    requires IsRun(a) && WellFormed(sh) && Refs(sh, a)
    ensures Changes(sh, RunStep(sh, t, a).0, a)
    ensures LogsGrow(sh, RunStep(sh, t, a).0, a, true)
  {
  }

  lemma BootChanges(sh: Shared, a: Action, o: Oracle)
    requires IsBoot(a) && WellFormed(sh) && Refs(sh, a)
    ensures Changes(sh, BootStep(sh, a, o).0, a)
    ensures LogsGrow(sh, BootStep(sh, a, o).0, a, o.ok)
  {
  }

  lemma AttachChanges(sh: Shared, a: Action, o: Oracle)
    requires IsAttach(a) && Refs(sh, a)
    ensures Changes(sh, AttachStep(sh, a, o).0, a)
    ensures LogsGrow(sh, AttachStep(sh, a, o).0, a, o.ok)
  {
  }

  lemma StopChanges(sh: Shared, a: Action, o: Oracle)
    requires IsStop(a) && WellFormed(sh) && Refs(sh, a)
    ensures Changes(sh, StopStep(sh, a, o).0, a)
    ensures LogsGrow(sh, StopStep(sh, a, o).0, a, o.ok)
  {
  }

  lemma RemoveChanges(sh: Shared, a: Action, o: Oracle)
    requires IsRemove(a) && Refs(sh, a)
    ensures Changes(sh, RemoveStep(sh, a, o).0, a)
    ensures LogsGrow(sh, RemoveStep(sh, a, o).0, a, o.ok)
  {
  }

  lemma ReadOnly(sh: Shared, a: Action, o: Oracle)
    requires !IsRun(a) && !IsBoot(a) && !IsAttach(a) && !IsStop(a) && !IsRemove(a)
    requires WellFormed(sh) && Refs(sh, a)
    ensures var sh' := ReadStep(sh, a, o).0;
            sh' == sh || sh' == sh.(panicked := Some(NilClientInStatus))
  {
  }

  lemma ExecChanges(sh: Shared, t: nat, a: Action, o: Oracle)
    requires WellFormed(sh) && Refs(sh, a)
    ensures Changes(sh, Exec(sh, t, a, o).0, a)
    ensures LogsGrow(sh, Exec(sh, t, a, o).0, a, o.ok)
  {
    if IsRun(a) { RunChanges(sh, t, a); }
    else if IsBoot(a) { BootChanges(sh, a, o); }
    else if IsAttach(a) { AttachChanges(sh, a, o); }
    else if IsStop(a) { StopChanges(sh, a, o); }
    else if IsRemove(a) { RemoveChanges(sh, a, o); }
    else { ReadOnly(sh, a, o); }
  }

  // ---------- Facts are established, and then kept ----------

  lemma {:induction false} GuardsHeld(held: seq<Hold>, code: Code, h: Hold)
    requires Disciplined(held, code) && Tail(code).Some?
    requires h in Guards(Tail(code).value) && !Takes(code, h.lock)
    ensures h in held
    decreases code
  {
    match code
    case Do(a) => GuardsAreHeld(a);
    case RLock(l, next) => GuardsHeld(held + [Hold(l, Reader)], next, h);
    case WLock(l, next) => GuardsHeld(held + [Hold(l, Writer)], next, h);
    case Unlock(next) => GuardsHeld(held[..|held| - 1], next, h);
  }

  lemma GuardsAreHeld(a: Action)
    ensures BootsImage(a) ==>
              Hold(StateLock(Booting(a)), Reader) in HeldAt(a) && Hold(BootLock(Booting(a)), Writer) in HeldAt(a)
    ensures a.CloudAttach? ==> Hold(DataLock(a.data), Writer) in HeldAt(a)
    ensures a.RemoveBody? || a.Release? || a.Delete? ==> Hold(StateLock(a.pod), Writer) in HeldAt(a)
    ensures forall h | h in Guards(a) :: h in HeldAt(a)
  {
    if BootsImage(a) {
      var r := Booting(a);
      var held := [Hold(StateLock(r), Reader), Hold(BootLock(r), Writer)];
      assert HeldAt(a)[0] == held[0] && HeldAt(a)[1] == held[1];
    }
    if a.CloudAttach? {
      assert HeldAt(a)[|HeldAt(a)| - 1] == Hold(DataLock(a.data), Writer);
    }
    if a.RemoveBody? || a.Release? || a.Delete? {
      assert HeldAt(a)[0] == Hold(StateLock(a.pod), Writer);
    }
  }

  predicate HasNext(code: Code) { !code.Done? && !code.Do? }

  /** The definitions of Tail and Takes, opened on the lock operations at the front of a piece of code. */
  lemma Front(code: Code)
    ensures HasNext(code) ==>
              var c1 := code.next;
              && Tail(code) == Tail(c1)
              && (forall l :: Takes(code, l) <==> (!code.Unlock? && code.lock == l) || Takes(c1, l))
    ensures HasNext(code) && HasNext(code.next) ==>
              var c1, c2 := code.next, code.next.next;
              && Tail(c1) == Tail(c2)
              && (forall l :: Takes(c1, l) <==> (!c1.Unlock? && c1.lock == l) || Takes(c2, l))
    ensures HasNext(code) && HasNext(code.next) && HasNext(code.next.next) ==>
              var c2, c3 := code.next.next, code.next.next.next;
              && Tail(c2) == Tail(c3)
              && (forall l :: Takes(c2, l) <==> (!c2.Unlock? && c2.lock == l) || Takes(c3, l))
  {
  }

  lemma RunFact(sh: Shared, t: nat, a: Action)
    requires IsRun(a) && WellFormed(sh) && Refs(sh, a)
    ensures var (sh', code) := RunStep(sh, t, a);
            Continues(sh', code)
  {
  }

  /** What the code after an access has to satisfy. */
  ghost predicate Continues(sh: Shared, code: Code) {
    WellFormed(sh) && (Tail(code).Some? ==> Fact(sh, Tail(code).value)) && Guarded(code)
  }

  lemma ProvisionFact(sh: Shared, job: Job, o: Oracle)
    requires WellFormed(sh) && Fact(sh, Provision(job))
    ensures var (sh', code) := BootStep(sh, Provision(job), o); Continues(sh', code)
  {
    Front(BootStep(sh, Provision(job), o).1);
  }

  lemma AttachNextFact(sh: Shared, a: Action, o: Oracle)
    requires a.AttachNext? && WellFormed(sh) && Fact(sh, a)
    ensures var (sh', code) := BootStep(sh, a, o); Continues(sh', code)
  {
    Front(BootStep(sh, a, o).1);
  }

  lemma AttachFact(sh: Shared, a: Action, o: Oracle)
    requires IsAttach(a) && WellFormed(sh) && Fact(sh, a) && AllConsistent(sh)
    ensures var (sh', code) := AttachStep(sh, a, o);
            Continues(sh', code)
  {
    if a.DecideAttach? { DecideFact(sh, a, o); } else { CloudFact(sh, a, o); }
  }

  lemma DecideFact(sh: Shared, a: Action, o: Oracle)
    requires a.DecideAttach? && WellFormed(sh) && Fact(sh, a) && AllConsistent(sh)
    ensures var (sh', code) := AttachStep(sh, a, o); Continues(sh', code)
  {
    TryHasLetter(sh.datas[a.data].alloc, a.vol, a.device);
    assert Consistent(sh.datas[a.data].alloc);
  }

  lemma CloudFact(sh: Shared, a: Action, o: Oracle)
    requires a.CloudAttach? && WellFormed(sh) && Fact(sh, a)
    ensures var (sh', code) := AttachStep(sh, a, o); Continues(sh', code)
  {
  }

  lemma StopFact(sh: Shared, a: Action, o: Oracle)
    requires IsStop(a) && WellFormed(sh) && Refs(sh, a)
    ensures var (sh', code) := StopStep(sh, a, o);
            Continues(sh', code)
  {
    Front(StopStep(sh, a, o).1);
  }

  lemma RemoveFact(sh: Shared, a: Action, o: Oracle)
    requires IsRemove(a) && WellFormed(sh) && Refs(sh, a)
    ensures var (sh', code) := RemoveStep(sh, a, o);
            Continues(sh', code)
  {
    Front(RemoveStep(sh, a, o).1);
  }

  lemma LookupFact(sh: Shared, id: string, purpose: Purpose, o: Oracle)
    requires WellFormed(sh)
    ensures var (sh', code) := ReadStep(sh, Lookup(id, purpose), o); Continues(sh', code)
  {
    Front(ReadStep(sh, Lookup(id, purpose), o).1);
  }

  lemma ListFact(sh: Shared, a: Action, o: Oracle)
    requires (a.CopyMap? || a.ListNext?) && WellFormed(sh) && Refs(sh, a) && Fits(sh, a, o)
    ensures var (sh', code) := ReadStep(sh, a, o); Continues(sh', code)
  {
    Front(ReadStep(sh, a, o).1);
    if a.CopyMap? {
      assert forall r | r in sh.vmMap.Values :: exists id :: id in sh.vmMap && sh.vmMap[id] == r;
    } else if a.refs != [] {
      var rest := a.refs[1..];
      forall q | q in rest ensures q < |sh.pods| { assert q in a.refs; }
      assert a.refs[0] in a.refs;
      assert Refs(sh, Visit(a.refs[0], rest, a.containers));
    }
  }

  lemma VisitFact(sh: Shared, a: Action, o: Oracle)
    requires (a.StatusBody? || a.Visit?) && WellFormed(sh) && Refs(sh, a)
    ensures var (sh', code) := ReadStep(sh, a, o); Continues(sh', code)
  {
    Front(ReadStep(sh, a, o).1);
  }

  lemma LookFact(sh: Shared, a: Action, o: Oracle)
    requires IsLook(a) && WellFormed(sh) && Refs(sh, a) && Fits(sh, a, o)
    ensures var (sh', code) := ReadStep(sh, a, o); Continues(sh', code)
  {
    match a
    case Lookup(id, purpose) => LookupFact(sh, id, purpose, o);
    case CopyMap(_) => ListFact(sh, a, o);
    case ListNext(_, _) => ListFact(sh, a, o);
    case _ => VisitFact(sh, a, o);
  }

  lemma ReadFact(sh: Shared, a: Action, o: Oracle)
    requires !IsRun(a) && !IsBoot(a) && !IsAttach(a) && !IsStop(a) && !IsRemove(a) && !IsLook(a)
    requires WellFormed(sh) && Refs(sh, a)
    ensures var (sh', code) := ReadStep(sh, a, o);
            Continues(sh', code)
  {
    Front(ReadStep(sh, a, o).1);
  }

  lemma ExecFact(sh: Shared, t: nat, a: Action, o: Oracle)
    requires WellFormed(sh) && Fact(sh, a) && Fits(sh, a, o) && AllConsistent(sh)
    ensures var (sh', code) := Exec(sh, t, a, o);
            Continues(sh', code)
  {
    if IsRun(a) { RunFact(sh, t, a); }
    else if a.Provision? { ProvisionFact(sh, a.job, o); }
    else if a.AttachNext? { AttachNextFact(sh, a, o); }
    else if IsAttach(a) { AttachFact(sh, a, o); }
    else if IsStop(a) { StopFact(sh, a, o); }
    else if IsRemove(a) { RemoveFact(sh, a, o); }
    else if IsLook(a) { LookFact(sh, a, o); }
    else { ReadFact(sh, a, o); }
  }

  /** An access of another thread spares a fact unless it ends the same boot or records on the same providerData. */
  lemma FactKept(sh: Shared, sh': Shared, a: Action, b: Action)
    requires Changes(sh, sh', a) && Fact(sh, b)
    requires BootsImage(b) ==> !BootEnd(a, Booting(b))
    requires b.CloudAttach? && a.CloudAttach? ==> a.data != b.data
    ensures Fact(sh', b)
  {
    if BootsImage(b) {
      assert sh'.pods[Booting(b)].booted == sh.pods[Booting(b)].booted;
    }
  }

  /** What thread u relies on for b it holds in full, so thread t cannot be at an access that needs to write it. */
  lemma GuardExcludes(s: State, t: nat, u: nat, h: Hold)
    requires LockInv(s) && t < |s.threads| && u < |s.threads| && t != u
    requires ThreadFact(s.shared, s.threads[u])
    requires s.threads[t].code.Do? && Tail(s.threads[u].code).Some?
    requires h in Guards(Tail(s.threads[u].code).value)
    ensures Hold(h.lock, Writer) !in HeldAt(s.threads[t].code.action)
    ensures h.mode.Writer? ==> Hold(h.lock, Reader) !in HeldAt(s.threads[t].code.action)
  {
    assert ThreadOk(s.threads[u]) && ThreadOk(s.threads[t]);
    GuardsHeld(Granted(s.threads[u]), s.threads[u].code, h);
    assert h in s.threads[u].held;
    assert Granted(s.threads[t]) == s.threads[t].held;
    if Hold(h.lock, Writer) in s.threads[t].held {
      assert Slot(s, t, h.lock) && Writes(s, t, h.lock);
      if h.mode.Writer? { assert Slot(s, u, h.lock); } else { assert Reads(s, u, h.lock); }
    }
    if h.mode.Writer? && Hold(h.lock, Reader) in s.threads[t].held {
      assert Writes(s, u, h.lock) && Reads(s, t, h.lock);
    }
  }

  lemma OthersKeepFacts(s: State, t: nat, u: nat, sh': Shared)
    requires LockInv(s) && t < |s.threads| && u < |s.threads| && t != u
    requires ThreadFact(s.shared, s.threads[u])
    requires s.threads[t].code.Do? && Changes(s.shared, sh', s.threads[t].code.action)
    ensures ThreadFact(sh', s.threads[u])
  {
    var a := s.threads[t].code.action;
    if Tail(s.threads[u].code).Some? {
      var b := Tail(s.threads[u].code).value;
      GuardsAreHeld(a);
      if BootsImage(b) { GuardExcludes(s, t, u, Hold(BootLock(Booting(b)), Writer)); }
      if b.CloudAttach? { GuardExcludes(s, t, u, Hold(DataLock(b.data), Writer)); }
      FactKept(s.shared, sh', a, b);
    }
  }

  lemma LockStepKeepsFact(sh: Shared, th: Thread)
    requires !th.code.Done? && !th.code.Do? && ThreadFact(sh, th)
    requires th.code.Unlock? ==> th.held != []
    ensures ThreadFact(sh, LockStep(th))
  {
  }

  lemma StartFact(sh: Shared, req: Request)
    ensures ThreadFact(sh, Thread(Start(req), []))
  {
  }

  lemma LogsStaySound(sh: Shared, sh': Shared, a: Action, ok: bool)
    requires Sound(sh) && Fact(sh, a) && WellFormed(sh')
    requires Changes(sh, sh', a) && LogsGrow(sh, sh', a, ok)
    ensures Sound(sh')
  {
    forall d: nat, v ensures (d, v) in sh'.attachLog <==> d < |sh'.datas| && v in sh'.datas[d].alloc.attached {
      assert (d, v) in sh.attachLog <==> d < |sh.datas| && v in sh.datas[d].alloc.attached;
    }
    if a.AttachNext? && a.rest == [] && a.job.ImageBoot? {
      assert BootEnd(a, a.job.pod);
      assert a.job.pod !in sh.bootLog;
    }
  }

  /** The two accesses of an Attach, between which the lock of its providerData is held, make of the allocator what one
      call of the allocator's model does. */
  lemma AttachRefines(sh: Shared, a: Action, o: Oracle, sh1: Shared, o1: Oracle)
    requires a.DecideAttach? && Refs(sh, a) && sh.datas[a.data].maps
    requires |sh1.datas| == |sh.datas| && sh1.datas[a.data] == AttachStep(sh, a, o).0.datas[a.data]
    requires a.loop.BootLoop? ==> (a.loop.job.ImageBoot? ==> a.loop.job.pod < |sh1.pods|)
    requires a.loop.MountLoop? ==> a.loop.pod < |sh1.pods|
    ensures var alloc, code := sh.datas[a.data].alloc, AttachStep(sh, a, o).1;
            var call := Call(a.vol, a.device, if o1.ok then Confirmed else Rejected);
            if code.Do? then
              && code.action.CloudAttach? && Refs(sh1, code.action)
              && AttachStep(sh1, code.action, o1).0.datas[a.data].alloc == Step(alloc, call).0
            else sh1.datas[a.data].alloc == Step(alloc, call).0
  {
    TryHasLetter(sh.datas[a.data].alloc, a.vol, a.device);
  }

  /** A device is reserved before the cloud is asked, so allocators stay consistent at every access. */
  lemma StaysConsistent(sh: Shared, t: nat, a: Action, o: Oracle)
    requires WellFormed(sh) && Fact(sh, a) && AllConsistent(sh)
    ensures AllConsistent(Exec(sh, t, a, o).0)
  {
    if IsRun(a) { assert Exec(sh, t, a, o) == RunStep(sh, t, a); }
    else if IsBoot(a) { assert Exec(sh, t, a, o) == BootStep(sh, a, o); }
    else if IsAttach(a) { AttachStaysConsistent(sh, a, o); }
    else if IsStop(a) { assert Exec(sh, t, a, o) == StopStep(sh, a, o); }
    else if IsRemove(a) { assert Exec(sh, t, a, o) == RemoveStep(sh, a, o); }
    else { ReadOnly(sh, a, o); }
  }

  lemma AttachStaysConsistent(sh: Shared, a: Action, o: Oracle)
    requires IsAttach(a) && Fact(sh, a) && AllConsistent(sh)
    ensures AllConsistent(AttachStep(sh, a, o).0)
  {
    assert Consistent(sh.datas[a.data].alloc);
    if a.DecideAttach? { TryHasLetter(sh.datas[a.data].alloc, a.vol, a.device); }
  }

  lemma StepKeepsOnce(s: State, ch: Choice)
    requires Enabled(s, ch) && LockInv(s) && Once(s)
    ensures Once(Next(s, ch))
  {
    var s' := Next(s, ch);
    match ch
    case Spawn(req) => StartFact(s.shared, req);
    case Run(t, o) =>
      var th := s.threads[t];
      if th.code.Do? {
        var a := th.code.action;
        ExecFact(s.shared, t, a, o);
        ExecChanges(s.shared, t, a, o);
        LogsStaySound(s.shared, s'.shared, a, o.ok);
        StaysConsistent(s.shared, t, a, o);
        forall u | 0 <= u < |s.threads| ensures ThreadFact(s'.shared, s'.threads[u]) {
          if u != t { OthersKeepFacts(s, t, u, s'.shared); }
        }
      } else {
        LockStepKeepsFact(s.shared, th);
      }
  }
}
