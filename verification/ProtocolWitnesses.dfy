/** Runs that show the conditions of the run theorems are needed: beyond the bound a late delete erases another
    pod's entry, a CreateContainer that waited out a removal boots the removed pod, and a removal without a stop
    makes a waiting status call use the nil client. */
module ProtocolWitnesses {
  import opened Wrappers
  import opened EbsDevices
  import opened Protocol
  import opened LockOrder
  import opened AddressBooks
  import opened ProtocolRuns
  import opened LateDeletes

  /** s is reached by n steps. */
  ghost predicate After(n: nat, s: State) {
    if n == 0 then Init(s)
    else exists p, ch :: After(n - 1, p) && Enabled(p, ch) && s == Next(p, ch)
  }

  ghost predicate Reachable(s: State) { exists n :: After(n, s) }

  /** ... by the steps of a run. */
  lemma {:induction false} RunTo(n: nat, s: State) returns (ss: seq<State>, cs: seq<Choice>)
    requires After(n, s)
    ensures Trace(ss, cs) && ss[|cs|] == s
    decreases n
  {
    if n == 0 {
      ss, cs := NoStep(s);
    } else {
      var p, ch := LastStep(n, s);
      var ss0, cs0 := RunTo(n - 1, p);
      ss, cs := OneMore(ss0, cs0, p, ch);
    }
  }

  lemma LastStep(n: nat, s: State) returns (p: State, ch: Choice)
    requires n > 0 && After(n, s)
    ensures After(n - 1, p) && Enabled(p, ch) && s == Next(p, ch)
  {
    p, ch :| After(n - 1, p) && Enabled(p, ch) && s == Next(p, ch);
  }

  lemma NoStep(s: State) returns (ss: seq<State>, cs: seq<Choice>)
    requires Init(s)
    ensures Trace(ss, cs) && cs == [] && ss == [s]
  {
    ss, cs := [s], [];
  }

  const YES := Oracle(true, 0, [])

  lemma Extend(s: State, ch: Choice)
    requires Reachable(s) && Enabled(s, ch)
    ensures Reachable(Next(s, ch))
  {
    var n: nat :| After(n, s);
    assert After(n + 1, Next(s, ch));
  }

  // ---------- Runs in larger strides ----------

  function Set(s: State, t: nat, th: Thread): State
    requires t < |s.threads|
  {
    s.(threads := s.threads[t := th])
  }

  lemma Arrive(s: State, req: Request) returns (s': State)
    requires Reachable(s) && s.shared.panicked.None? && WellFormed(s.shared) && !req.ReadLogPath?
    ensures Reachable(s') && s' == s.(threads := s.threads + [Thread(Start(req), [])])
  {
    s' := Next(s, Spawn(req));
    Extend(s, Spawn(req));
  }

  predicate CanWrite(s: State, t: nat) {
    s.shared.panicked.None? && t < |s.threads| && s.threads[t].code.WLock?
  }

  /** A writer that finds no other writer announces itself ... */
  lemma Announces(s: State, t: nat)
    requires CanWrite(s, t) && WellFormed(s.shared) && !IsPending(s.threads[t])
    requires forall u: nat :: !Slot(s, u, s.threads[t].code.lock)
    ensures Enabled(s, Run(t, YES))
    ensures Next(s, Run(t, YES))
            == Set(s, t, Thread(s.threads[t].code, s.threads[t].held + [Hold(s.threads[t].code.lock, Pending)]))
  {
  }

  /** ... and enters when no reader is left. */
  lemma Enters(s: State, t: nat, held: seq<Hold>)
    requires CanWrite(s, t) && WellFormed(s.shared)
             && s.threads[t].held == held + [Hold(s.threads[t].code.lock, Pending)]
    requires forall u: nat :: !Reads(s, u, s.threads[t].code.lock)
    ensures Enabled(s, Run(t, YES))
    ensures Next(s, Run(t, YES))
            == Set(s, t, Thread(s.threads[t].code.next, held + [Hold(s.threads[t].code.lock, Writer)]))
  {
    assert s.threads[t].held[..|s.threads[t].held| - 1] == held;
  }

  /** Lock a free lock for writing. */
  lemma TakeWrite(s: State, t: nat) returns (s': State)
    requires Reachable(s) && CanWrite(s, t) && WellFormed(s.shared) && !IsPending(s.threads[t])
    requires forall u: nat :: !Slot(s, u, s.threads[t].code.lock) && !Reads(s, u, s.threads[t].code.lock)
    ensures Reachable(s')
    ensures s' == Set(s, t, Thread(s.threads[t].code.next, s.threads[t].held + [Hold(s.threads[t].code.lock, Writer)]))
  {
    var th := s.threads[t];
    var s1 := Set(s, t, Thread(th.code, th.held + [Hold(th.code.lock, Pending)]));
    assert Reachable(s1) by { Announces(s, t); Extend(s, Run(t, YES)); }
    forall u: nat ensures !Reads(s1, u, th.code.lock) { assert !Reads(s, u, th.code.lock); }
    s' := Set(s, t, Thread(th.code.next, th.held + [Hold(th.code.lock, Writer)]));
    Enters(s1, t, th.held);
    assert s1.threads[t := s'.threads[t]] == s'.threads;
    Extend(s1, Run(t, YES));
  }

  /** Lock for reading what nobody writes. */
  lemma TakeRead(s: State, t: nat) returns (s': State)
    requires Reachable(s) && s.shared.panicked.None? && WellFormed(s.shared)
    requires t < |s.threads| && s.threads[t].code.RLock?
    requires forall u: nat :: !Slot(s, u, s.threads[t].code.lock)
    ensures Reachable(s')
    ensures s' == Set(s, t, Thread(s.threads[t].code.next, s.threads[t].held + [Hold(s.threads[t].code.lock, Reader)]))
  {
    s' := Next(s, Run(t, YES));
    Extend(s, Run(t, YES));
  }

  lemma Leave(s: State, t: nat) returns (s': State)
    requires Reachable(s) && s.shared.panicked.None? && WellFormed(s.shared)
    requires t < |s.threads| && s.threads[t].code.Unlock? && s.threads[t].held != []
    ensures Reachable(s')
    ensures s' == Set(s, t, Thread(s.threads[t].code.next, s.threads[t].held[..|s.threads[t].held| - 1]))
  {
    s' := Next(s, Run(t, YES));
    Extend(s, Run(t, YES));
  }

  /** Make the next access, with the environment saying yes. */
  lemma Access(s: State, t: nat, a: Action, sh: Shared, code: Code) returns (s': State)
    requires Reachable(s) && s.shared.panicked.None? && WellFormed(s.shared)
    requires t < |s.threads| && s.threads[t].code == Do(a) && !a.CopyMap?
    requires Refs(s.shared, a) && Exec(s.shared, t, a, YES) == (sh, code)
    ensures Reachable(s') && s' == State(sh, s.threads[t := Thread(code, s.threads[t].held)])
  {
    s' := Next(s, Run(t, YES));
    Extend(s, Run(t, YES));
  }

  ghost predicate Uncontended(s: State, l: Lock) {
    forall u: nat :: !Slot(s, u, l) && !Reads(s, u, l)
  }

  /** Lock l for writing and make access a. */
  lemma WriteThen(s: State, t: nat, l: Lock, a: Action, held: seq<Hold>, sh: Shared, code: Code) returns (s': State)
    requires Reachable(s) && CanWrite(s, t) && WellFormed(s.shared) && Uncontended(s, l)
    requires s.threads[t] == Thread(WLock(l, Do(a)), held) && !IsPending(s.threads[t]) && !a.CopyMap?
    requires Refs(s.shared, a) && Exec(s.shared, t, a, YES) == (sh, code)
    ensures Reachable(s') && s' == State(sh, s.threads[t := Thread(code, held + [Hold(l, Writer)])])
  {
    var s1 := TakeWrite(s, t);
    s' := Access(s1, t, a, sh, code);
    assert s1.threads[t := s'.threads[t]] == s.threads[t := s'.threads[t]];
  }

  /** The process lives and no handler holds a lock. */
  ghost predicate Idle(s: State) { Living(s) && forall t | 0 <= t < |s.threads| :: s.threads[t].held == [] }

  /** The request arrives and finds its pod. */
  lemma Finds(s: State, req: Request, id: string, purpose: Purpose) returns (s': State)
    requires Reachable(s) && Idle(s) && id in s.shared.vmMap && !req.ReadLogPath?
    requires Start(req) == RLock(VmMapLock, Do(Lookup(id, purpose)))
    ensures Reachable(s') && Idle(s')
    ensures s' == s.(threads := s.threads + [Thread(Enter(purpose, s.shared.vmMap[id]), [])])
  {
    var s1 := Arrive(s, req);
    s' := LooksUp(s1, |s.threads|, id, purpose);
    assert s'.threads == s.threads + [Thread(Enter(purpose, s.shared.vmMap[id]), [])];
  }

  lemma LooksUp(s: State, t: nat, id: string, purpose: Purpose) returns (s': State)
    requires Reachable(s) && Idle(s) && id in s.shared.vmMap
    requires t < |s.threads| && s.threads[t] == Thread(RLock(VmMapLock, Do(Lookup(id, purpose))), [])
    ensures Reachable(s') && s' == Set(s, t, Thread(Enter(purpose, s.shared.vmMap[id]), []))
  {
    var next, held := Enter(purpose, s.shared.vmMap[id]), [Hold(VmMapLock, Reader)];
    var s1 := TakeRead(s, t);
    assert [] + held == held;
    var s2 := Access(s1, t, Lookup(id, purpose), s.shared, Unlock(next));
    s' := Leave(s2, t);
    assert held[..0] == [];
    assert s'.threads == s.threads[t := Thread(next, [])];
  }

  ghost predicate Living(s: State) { s.shared.panicked.None? && WellFormed(s.shared) }

  /** The handlers that hold locks in s' are those of s. */
  ghost predicate Joined(s: State, s': State) {
    && |s.threads| <= |s'.threads| && s'.threads[..|s.threads|] == s.threads
    && forall t | |s.threads| <= t < |s'.threads| :: s'.threads[t].held == []
  }

  lemma JoinedUncontended(s: State, s': State, l: Lock)
    requires Joined(s, s') && Uncontended(s, l)
    ensures Uncontended(s', l)
  {
    forall u: nat ensures !Slot(s', u, l) && !Reads(s', u, l) {
      assert !Slot(s, u, l) && !Reads(s, u, l);
      assert u < |s.threads| ==> s'.threads[u] == s'.threads[..|s.threads|][u];
    }
  }

  function Taken(sh: Shared, t: nat): Shared
    requires sh.pool != []
  {
    sh.(pool := sh.pool[1..], ledger := sh.ledger[sh.pool[0] := Carried(t)], shifts := sh.shifts + 1)
  }

  lemma ShiftStep(sh: Shared, t: nat)
    requires sh.pool != [] && WellFormed(sh)
    ensures Exec(sh, t, Shift([]), YES) == (Taken(sh, t), Unlock(Do(Launch(sh.pool[0], []))))
  {
  }

  /** A new RunPodSandbox takes the first free address. */
  lemma TakeOne(s: State) returns (s': State)
    requires Reachable(s) && Living(s) && s.shared.pool != [] && Uncontended(s, DequeLock)
    ensures Reachable(s') && s'.shared == Taken(s.shared, |s.threads|)
    ensures s'.threads == s.threads + [Thread(Do(Launch(s.shared.pool[0], [])), [])]
  {
    var t, next := |s.threads|, Do(Launch(s.shared.pool[0], []));
    var s1 := Arrive(s, RunPodSandbox([]));
    assert Joined(s, s1);
    JoinedUncontended(s, s1, DequeLock);
    ShiftStep(s.shared, t);
    var s2 := WriteThen(s1, t, DequeLock, Shift([]), [], Taken(s.shared, t), Unlock(next));
    assert [] + [Hold(DequeLock, Writer)] == [Hold(DequeLock, Writer)];
    s' := Leave(s2, t);
    assert [Hold(DequeLock, Writer)][..0] == [];
    assert s'.threads == s.threads + [Thread(next, [])];
  }

  /** So do m of them, one after the other. */
  lemma {:induction false} TakeMany(s: State, m: nat) returns (s': State)
    requires Reachable(s) && Living(s) && m <= |s.shared.pool| && Uncontended(s, DequeLock)
    ensures Reachable(s') && Joined(s, s')
    ensures s'.shared == s.shared.(pool := s.shared.pool[m..], shifts := s.shared.shifts + m,
                                   ledger := s'.shared.ledger)
    decreases m
  {
    if m == 0 {
      s' := s;
    } else {
      var s1 := TakeMany(s, m - 1);
      JoinedUncontended(s, s1, DequeLock);
      s' := TakeOne(s1);
      assert s.shared.pool[m - 1..][1..] == s.shared.pool[m..];
    }
  }

  // ---------- A removal, with its window ----------

  function Gone(sh: Shared, r: nat): Shared
    requires r < |sh.pods|
  {
    WithPod(sh, r, sh.pods[r].(client := None))
  }

  /** The address is back in the pool, behind all others; the delete is still to come. */
  function Released(sh: Shared, r: nat): Shared
    requires r < |sh.pods|
  {
    Gone(sh, r).(pool := sh.pool + [sh.pods[r].addr], ledger := sh.ledger[sh.pods[r].addr := Free])
  }

  function DeleteNext(sh: Shared, r: nat): Thread {
    Thread(WLock(VmMapLock, Do(Delete(r, |sh.pool|, sh.shifts))), [Hold(StateLock(r), Writer)])
  }

  function Forgotten(sh: Shared, r: nat): Shared
    requires r < |sh.pods|
  {
    Released(sh, r).(vmMap := sh.vmMap - {sh.pods[r].addr})
  }

  lemma RemovalSteps(sh: Shared, t: nat, r: nat)
    requires WellFormed(sh) && r < |sh.pods| && sh.pods[r].client.Some?
    ensures WellFormed(Gone(sh, r)) && WellFormed(Released(sh, r)) && WellFormed(Forgotten(sh, r))
    ensures Exec(sh, t, RemoveBody(r), YES) == (Gone(sh, r), WLock(DequeLock, Do(Release(r))))
    ensures Exec(Gone(sh, r), t, Release(r), YES) == (Released(sh, r), Unlock(DeleteNext(sh, r).code))
    ensures var d := Delete(r, |sh.pool|, sh.shifts);
            Exec(Released(sh, r), t, d, YES) == (Forgotten(sh, r), Unlock(Unlock(Done)))
  {
  }

  /** A removal alone at work takes the client ... */
  lemma TakesClient(s: State, t: nat, r: nat) returns (s': State)
    requires Reachable(s) && Idle(s) && r < |s.shared.pods| && s.shared.pods[r].client.Some?
    requires t < |s.threads| && s.threads[t] == Thread(WLock(StateLock(r), Do(RemoveBody(r))), [])
    ensures Reachable(s') && Uncontended(s', DequeLock)
    ensures s' == State(Gone(s.shared, r),
                        s.threads[t := Thread(WLock(DequeLock, Do(Release(r))), [Hold(StateLock(r), Writer)])])
  {
    RemovalSteps(s.shared, t, r);
    s' := WriteThen(s, t, StateLock(r), RemoveBody(r), [], Gone(s.shared, r), WLock(DequeLock, Do(Release(r))));
    assert [] + [Hold(StateLock(r), Writer)] == [Hold(StateLock(r), Writer)];
    OnlyStateLock(s, s', t, r, DequeLock);
  }

  /** ... and gives the address back. */
  lemma Releases(s: State, t: nat, r: nat) returns (s': State)
    requires Reachable(s) && Idle(s) && r < |s.shared.pods| && s.shared.pods[r].client.Some?
    requires t < |s.threads| && s.threads[t] == Thread(WLock(StateLock(r), Do(RemoveBody(r))), [])
    ensures Reachable(s') && s' == State(Released(s.shared, r), s.threads[t := DeleteNext(s.shared, r)])
  {
    var held := [Hold(StateLock(r), Writer)];
    var s1 := TakesClient(s, t, r);
    RemovalSteps(s.shared, t, r);
    var next := DeleteNext(s.shared, r);
    var s2 := WriteThen(s1, t, DequeLock, Release(r), held, Released(s.shared, r), Unlock(next.code));
    s' := Leave(s2, t);
    assert (held + [Hold(DequeLock, Writer)])[..1] == held;
    assert s'.threads == s.threads[t := DeleteNext(s.shared, r)];
  }

  /** Only the state lock of r is held, by thread t. */
  lemma OnlyStateLock(s: State, s': State, t: nat, r: nat, l: Lock)
    requires Idle(s) && t < |s.threads| && |s'.threads| == |s.threads| && l != StateLock(r)
    requires forall u | 0 <= u < |s.threads| && u != t :: s'.threads[u] == s.threads[u]
    requires s'.threads[t].held == [Hold(StateLock(r), Writer)]
    ensures Uncontended(s', l)
  {
  }

  /** And deletes the entry. */
  lemma Deletes(s: State, t: nat, r: nat, s0: State) returns (s': State)
    requires Idle(s0) && Reachable(s) && t < |s0.threads| && r < |s0.shared.pods| && s0.shared.pods[r].client.Some?
    requires s == State(Released(s0.shared, r), s0.threads[t := DeleteNext(s0.shared, r)])
    ensures Reachable(s') && Idle(s') && s' == State(Forgotten(s0.shared, r), s0.threads[t := Thread(Done, [])])
  {
    var held, d := [Hold(StateLock(r), Writer)], Delete(r, |s0.shared.pool|, s0.shared.shifts);
    RemovalSteps(s0.shared, t, r);
    OnlyStateLock(s0, s, t, r, VmMapLock);
    var s1 := WriteThen(s, t, VmMapLock, d, held, Forgotten(s0.shared, r), Unlock(Unlock(Done)));
    var s2 := Leave(s1, t);
    assert (held + [Hold(VmMapLock, Writer)])[..1] == held;
    s' := Leave(s2, t);
    assert held[..0] == [];
    assert s'.threads == s0.threads[t := Thread(Done, [])];
  }

  // ---------- A late delete beyond the bound ----------

  /** One imported pod under address "a", and the other addresses free. */
  function OnePod(pool: seq<string>): Shared {
    Shared(false, pool, map["a" := 0], [Pod("a", true, Some(0), true, 0, true)], [Data(false, false, EMPTY, [])], 1,
           None, (map x | x in pool :: Free)["a" := Held(0)], 0, [], [])
  }

  lemma OnePodReachable(pool: seq<string>)
    requires NoDup(pool) && "a" !in pool
    ensures Reachable(State(OnePod(pool), []))
  {
    var s := State(OnePod(pool), []);
    assert s.shared.pods[0] == Pod("a", true, Some(0), true, 0, true);
    assert Init(s);
    assert After(0, s);
  }

  const NEW_POD := NewPod("a", [])

  /** What the creation of a pod with address "a" makes of the shared data after its address is taken. */
  function Booted(sh: Shared): Shared {
    sh.(datas := sh.datas + [Data(true, true, EMPTY, [])], clients := sh.clients + 1)
  }

  function Listed(sh: Shared): Shared {
    Booted(sh).(pods := sh.pods + [Pod("a", true, Some(sh.clients), true, |sh.datas|, true)],
                vmMap := sh.vmMap["a" := |sh.pods|], ledger := sh.ledger["a" := Held(|sh.pods|)])
  }

  lemma NewPodBoots(s: State, t: nat) returns (s': State)
    requires Reachable(s) && Living(s) && !s.shared.imagePod
    requires t < |s.threads| && s.threads[t] == Thread(Do(Launch("a", [])), [])
    ensures Reachable(s')
    ensures s' == State(Booted(s.shared),
                        s.threads[t := Thread(Do(AttachNext(|s.shared.datas|, s.shared.clients, [], NEW_POD)), [])])
  {
    var s1 := Access(s, t, Launch("a", []), s.shared, Do(Provision(NEW_POD)));
    s' := Access(s1, t, Provision(NEW_POD), Booted(s.shared),
                 Do(AttachNext(|s.shared.datas|, s.shared.clients, [], NEW_POD)));
  }

  function Created(sh: Shared): Shared {
    Booted(sh).(pods := sh.pods + [Pod("a", true, Some(sh.clients), true, |sh.datas|, false)])
  }

  lemma ListStep(sh: Shared, t: nat)
    requires WellFormed(sh)
    ensures WellFormed(Booted(sh)) && WellFormed(Created(sh)) && WellFormed(Listed(sh))
    ensures var a, r := AttachNext(|sh.datas|, sh.clients, [], NEW_POD), |sh.pods|;
            && Refs(Booted(sh), a) && Exec(Booted(sh), t, a, YES) == (Created(sh), WLock(VmMapLock, Do(Insert(r))))
            && Refs(Created(sh), Insert(r)) && Exec(Created(sh), t, Insert(r), YES) == (Listed(sh), Unlock(Done))
  {
    var r := |sh.pods|;
    assert Created(sh).pods[r := Created(sh).pods[r].(listed := true)] == Listed(sh).pods;
  }

  lemma NewPodListed(sh: Shared, s: State, t: nat) returns (s': State)
    requires Reachable(s) && WellFormed(sh) && sh.panicked.None? && s.shared == Booted(sh) && Uncontended(s, VmMapLock)
    requires t < |s.threads| && s.threads[t] == Thread(Do(AttachNext(|sh.datas|, sh.clients, [], NEW_POD)), [])
    ensures Reachable(s') && s' == State(Listed(sh), s.threads[t := Thread(Done, [])])
  {
    ListStep(sh, t);
    var a, insert := AttachNext(|sh.datas|, sh.clients, [], NEW_POD), Insert(|sh.pods|);
    var s1 := Access(s, t, a, Created(sh), WLock(VmMapLock, Do(insert)));
    SameHolds(s, s1, VmMapLock);
    var s2 := WriteThen(s1, t, VmMapLock, insert, [], Listed(sh), Unlock(Done));
    assert [] + [Hold(VmMapLock, Writer)] == [Hold(VmMapLock, Writer)];
    s' := Leave(s2, t);
    assert [Hold(VmMapLock, Writer)][..0] == [];
    assert s'.threads == s.threads[t := Thread(Done, [])];
  }

  lemma SameHolds(s: State, s': State, l: Lock)
    requires |s'.threads| == |s.threads| && forall t | 0 <= t < |s.threads| :: s'.threads[t].held == s.threads[t].held
    requires Uncontended(s, l)
    ensures Uncontended(s', l)
  {
    forall u: nat ensures !Slot(s', u, l) && !Reads(s', u, l) { assert !Slot(s, u, l) && !Reads(s, u, l); }
  }

  /** The removal of the imported pod has given its address back. */
  lemma WindowOpen(pool: seq<string>)
    requires NoDup(pool) && "a" !in pool
    ensures Reachable(Window(pool))
    ensures forall l | l != StateLock(0) :: Uncontended(Window(pool), l)
  {
    OnePodReachable(pool);
    var s0 := State(OnePod(pool), []);
    var s1 := Finds(s0, RemovePodSandbox("a"), "a", ForRemove);
    var s2 := Releases(s1, 0, 0);
    assert s2 == Window(pool);
    forall l | l != StateLock(0) ensures Uncontended(Window(pool), l) { OnlyStateLock(s1, s2, 0, 0, l); }
  }

  function Window(pool: seq<string>): State { State(Released(OnePod(pool), 0), [DeleteNext(OnePod(pool), 0)]) }

  /** As many handlers as the pool had addresses at the release have taken them all. */
  lemma OthersTaken(pool: seq<string>) returns (s: State)
    requires NoDup(pool) && "a" !in pool
    ensures Reachable(s) && Joined(Window(pool), s) && |s.threads| > 0
    ensures s.shared == Released(OnePod(pool), 0).(pool := ["a"], shifts := |pool|, ledger := s.shared.ledger)
  {
    WindowOpen(pool);
    s := TakeMany(Window(pool), |pool|);
  }

  /** One handler more is given "a". */
  lemma SecondPodBooted(pool: seq<string>) returns (s: State, sh: Shared, t: nat)
    requires NoDup(pool) && "a" !in pool
    ensures Reachable(s) && Joined(Window(pool), s) && s.shared == Booted(sh)
    ensures sh == Released(OnePod(pool), 0).(pool := [], shifts := |pool| + 1, ledger := sh.ledger)
    ensures 0 < t < |s.threads| && s.threads[t] == Thread(Do(AttachNext(1, 1, [], NEW_POD)), [])
  {
    var s1 := OthersTaken(pool);
    WindowOpen(pool);
    JoinedUncontended(Window(pool), s1, DequeLock);
    t := |s1.threads|;
    var s2 := TakeOne(s1);
    s := NewPodBoots(s2, t);
    sh := s2.shared;
  }

  /** Its pod is listed ... */
  lemma SecondPodListed(pool: seq<string>) returns (s: State, sh: Shared)
    requires NoDup(pool) && "a" !in pool
    ensures Reachable(s) && Joined(Window(pool), s) && s.shared == Listed(sh)
    ensures sh == Released(OnePod(pool), 0).(pool := [], shifts := |pool| + 1, ledger := sh.ledger)
  {
    var s1, sh1, t := SecondPodBooted(pool);
    sh := sh1;
    WindowOpen(pool);
    JoinedUncontended(Window(pool), s1, VmMapLock);
    s := NewPodListed(sh, s1, t);
  }

  /** ... and the delete may go on. */
  lemma ReadyToDelete(pool: seq<string>) returns (s: State, sh: Shared)
    requires NoDup(pool) && "a" !in pool
    ensures Reachable(s) && 0 < |s.threads| && s.threads[0].code == Do(Delete(0, |pool|, 0)) && s.shared == Listed(sh)
    ensures sh == Released(OnePod(pool), 0).(pool := [], shifts := |pool| + 1, ledger := sh.ledger)
  {
    var s0 := Window(pool);
    var s1, sh1 := SecondPodListed(pool);
    sh := sh1;
    WindowOpen(pool);
    JoinedUncontended(s0, s1, VmMapLock);
    assert s1.threads[0] == s1.threads[..1][0] == DeleteNext(OnePod(pool), 0);
    s := TakeWrite(s1, 0);
  }

  /** A run ending with thread t about to make access a, extended by it. */
  lemma RunThrough(s: State, t: nat, a: Action) returns (ss: seq<State>, cs: seq<Choice>)
    requires Reachable(s) && Enabled(s, Run(t, YES)) && s.threads[t].code == Do(a)
    ensures Trace(ss, cs) && |cs| > 0
    ensures ss[|cs| - 1] == s && Accesses(s, cs[|cs| - 1], t, a) && ss[|cs|] == Next(s, Run(t, YES))
  {
    var n: nat :| After(n, s);
    var ss0, cs0 := RunTo(n, s);
    ss, cs := OneMore(ss0, cs0, s, Run(t, YES));
  }

  lemma OneMore(ss: seq<State>, cs: seq<Choice>, s: State, ch: Choice) returns (ss': seq<State>, cs': seq<Choice>)
    requires Trace(ss, cs) && ss[|cs|] == s && Enabled(s, ch)
    ensures Trace(ss', cs') && |cs'| == |cs| + 1
    ensures ss'[|cs|] == s && cs'[|cs|] == ch && ss'[|cs'|] == Next(s, ch)
  {
    ss', cs' := ss + [Next(s, ch)], cs + [ch];
    forall i | 0 <= i < |cs'| ensures Follows(ss', cs', i) {
      if i < |cs| { assert Follows(ss, cs, i); }
    }
  }

  /** The bound of LateDeleteIsHarmless is tight: whatever the pool held at the release, one address taken more than
      that is enough for the delete to erase the entry of a new, living pod. */
  lemma LateDeleteCanErase(pool: seq<string>) returns (ss: seq<State>, cs: seq<Choice>, i: nat)
    requires NoDup(pool) && "a" !in pool
    ensures Trace(ss, cs) && i < |cs| - 1
    ensures Accesses(ss[i], cs[i], 0, Release(0)) && |ss[i].shared.pool| == |pool|
    ensures var j := |cs| - 1;
            && Accesses(ss[j], cs[j], 0, Delete(0, |pool|, 0)) && Shifts(ss, cs, i, j) == |pool| + 1
            && ss[j].shared.vmMap == map["a" := 1] && ss[j + 1].shared.vmMap == map[]
            && HasAddress(ss[j + 1], 1, "a")
            && ss[j + 1].shared.pods[1].client.Some? && ss[j + 1].shared.pods[1].booted
  {
    ss, cs := DeletingRun(pool);
    var d := Delete(0, |pool|, 0);
    assert AboutToDelete(ss[|cs| - 1], 0, d);
    i := ReleasedBefore(ss, cs, |cs| - 1, 0, d);
    ShiftsCounted(ss, cs, i, |cs| - 1);
  }

  lemma DeletingRun(pool: seq<string>) returns (ss: seq<State>, cs: seq<Choice>)
    requires NoDup(pool) && "a" !in pool
    ensures Trace(ss, cs) && |cs| > 0 && Accesses(ss[|cs| - 1], cs[|cs| - 1], 0, Delete(0, |pool|, 0))
    ensures ss[|cs| - 1].shared.shifts == |pool| + 1
    ensures ss[|cs| - 1].shared.vmMap == map["a" := 1] && ss[|cs|].shared.vmMap == map[]
    ensures HasAddress(ss[|cs|], 1, "a") && ss[|cs|].shared.pods[1].client.Some? && ss[|cs|].shared.pods[1].booted
  {
    var s, sh := ReadyToDelete(pool);
    DeleteErases(pool, s, sh);
    ss, cs := RunThrough(s, 0, Delete(0, |pool|, 0));
  }

  lemma DeleteErases(pool: seq<string>, s: State, sh: Shared)
    requires 0 < |s.threads| && s.threads[0].code == Do(Delete(0, |pool|, 0)) && s.shared == Listed(sh)
    requires sh == Released(OnePod(pool), 0).(pool := [], shifts := |pool| + 1, ledger := sh.ledger)
    ensures Enabled(s, Run(0, YES)) && s.shared.shifts == |pool| + 1 && s.shared.vmMap == map["a" := 1]
    ensures var s' := Next(s, Run(0, YES));
            && s'.shared.vmMap == map[]
            && HasAddress(s', 1, "a") && s'.shared.pods[1].client.Some? && s'.shared.pods[1].booted
  {
    assert s.shared.pods == [Pod("a", true, None, true, 0, true), Pod("a", true, Some(1), true, 1, true)];
    assert WellFormed(s.shared);
    ErasingStep(s.shared, |pool|);
  }

  lemma ErasingStep(sh: Shared, size: nat)
    requires WellFormed(sh) && |sh.pods| > 0 && sh.pods[0].addr == "a" && sh.vmMap == map["a" := 1]
    ensures Exec(sh, 0, Delete(0, size, 0), YES) == (sh.(vmMap := map[]), Unlock(Unlock(Done)))
  {
    assert sh.vmMap - {"a"} == map[];
  }

  // ---------- A removal without a stop ----------

  /** A removal that no stop came before lets a status call that already holds the PodData use the nil client:
      the condition of RemovedIsNotReady is needed. */
  lemma RemovalWithoutStopCanPanic() returns (ss: seq<State>, cs: seq<Choice>)
    ensures Trace(ss, cs) && ss[|cs|].shared.panicked == Some(NilClientInStatus)
  {
    var s := StatusGoesOn();
    ss, cs := RunThrough(s, 0, StatusBody(0));
  }

  /** A status call waits out a removal and then reads the pod. */
  lemma StatusGoesOn() returns (s: State)
    ensures Reachable(s) && Living(s) && |s.threads| > 0 && s.threads[0].code == Do(StatusBody(0))
    ensures |s.shared.pods| > 0
    ensures s.shared.pods[0].ready && s.shared.pods[0].booted && s.shared.pods[0].client.None?
  {
    var s1 := StatusOvertaken();
    var s2 := Releases(s1, 1, 0);
    var s3 := Deletes(s2, 1, 0, s1);
    s := TakeRead(s3, 0);
  }

  lemma StatusOvertaken() returns (s: State)
    ensures Reachable(s) && Idle(s) && s.shared == OnePod([])
    ensures s.threads == [Thread(Enter(ForStatus, 0), []), Thread(Enter(ForRemove, 0), [])]
  {
    OnePodReachable([]);
    var s1 := Finds(State(OnePod([]), []), PodSandboxStatus("a"), "a", ForStatus);
    s := Finds(s1, RemovePodSandbox("a"), "a", ForRemove);
  }

  // ---------- The boot of a removed image pod ----------

  /** An image pod provider that has imported nothing, with one address. */
  const FRESH := Shared(true, ["a"], map[], [], [], 0, None, map["a" := Free], 0, [], [])
  const IMAGE_POD := Pod("a", true, Some(0), false, 0, true)

  function ImageMade(sh: Shared): Shared {
    sh.(datas := [Data(false, false, EMPTY, [])], clients := 1, pods := [IMAGE_POD.(listed := false)])
  }

  function ImageListed(sh: Shared): Shared {
    ImageMade(sh).(pods := [IMAGE_POD], vmMap := map["a" := 0], ledger := sh.ledger["a" := Held(0)])
  }

  lemma ImageSteps(sh: Shared)
    requires sh.imagePod && sh.datas == [] && sh.pods == [] && sh.clients == 0 && sh.vmMap == map[]
    ensures WellFormed(sh) && WellFormed(ImageMade(sh)) && WellFormed(ImageListed(sh)) && Refs(ImageMade(sh), Insert(0))
    ensures Exec(sh, 0, Launch("a", []), YES) == (ImageMade(sh), WLock(VmMapLock, Do(Insert(0))))
    ensures Exec(ImageMade(sh), 0, Insert(0), YES) == (ImageListed(sh), Unlock(Done))
  {
    assert sh.datas + [Data(false, false, EMPTY, [])] == [Data(false, false, EMPTY, [])];
    assert sh.pods + [IMAGE_POD.(listed := false)] == [IMAGE_POD.(listed := false)];
    assert ImageMade(sh).pods[0 := ImageMade(sh).pods[0].(listed := true)] == [IMAGE_POD];
    assert ImageMade(sh).vmMap["a" := 0] == map["a" := 0];
  }

  lemma FreshReachable()
    ensures Reachable(State(FRESH, []))
  {
    assert Init(State(FRESH, []));
    assert After(0, State(FRESH, []));
  }

  /** One image pod is listed, not booted. */
  lemma ImagePodListed() returns (s: State)
    ensures Reachable(s) && Idle(s) && |s.threads| == 1 && s.shared.imagePod && s.shared.pool == []
    ensures s.shared.pods == [IMAGE_POD] && s.shared.vmMap == map["a" := 0]
    ensures s.shared.datas == [Data(false, false, EMPTY, [])]
  {
    FreshReachable();
    var s1 := TakeOne(State(FRESH, []));
    var sh := s1.shared;
    ImageSteps(sh);
    var s2 := Access(s1, 0, Launch("a", []), ImageMade(sh), WLock(VmMapLock, Do(Insert(0))));
    var s3 := WriteThen(s2, 0, VmMapLock, Insert(0), [], ImageListed(sh), Unlock(Done));
    s := Leave(s3, 0);
    assert ([] + [Hold(VmMapLock, Writer)])[..0] == [];
  }

  const LATE_JOB := ImageBoot(0, [])

  /** A CreateContainer has found it, and waits out its removal. */
  lemma RemovedBeforeBoot() returns (s: State)
    ensures Reachable(s) && Idle(s) && s.shared.imagePod && s.shared.pool == ["a"] && s.shared.vmMap == map[]
    ensures s.shared.pods == [IMAGE_POD.(client := None)] && s.shared.datas == [Data(false, false, EMPTY, [])]
    ensures |s.threads| > 1 && s.threads[1] == Thread(RLock(StateLock(0), WLock(BootLock(0), Do(PreCreate(0, [])))), [])
  {
    var s1 := ImagePodListed();
    var s2 := Finds(s1, CreateContainer("a", []), "a", ForCreate([]));
    var s3 := Finds(s2, RemovePodSandbox("a"), "a", ForRemove);
    var s4 := Releases(s3, 2, 0);
    s := Deletes(s4, 2, 0, s3);
    assert s.shared.pods == [IMAGE_POD.(client := None)];
  }

  /** It provisions a VM for the removed pod. */
  lemma LateBootUnderWay() returns (s: State, a: Action)
    ensures Reachable(s) && Living(s) && |s.threads| > 1 && s.threads[1].code == Do(a) && Refs(s.shared, a)
    ensures a.AttachNext? && a.rest == [] && a.job == LATE_JOB
    ensures s.shared.pool == ["a"] && s.shared.vmMap == map[] && s.shared.pods == [IMAGE_POD.(client := None)]
  {
    var s1 := RemovedBeforeBoot();
    var sh := s1.shared;
    var s2 := TakeRead(s1, 1);
    forall u: nat ensures !Slot(s2, u, BootLock(0)) && !Reads(s2, u, BootLock(0)) {
      assert 0 <= u < |s1.threads| ==> s1.threads[u].held == [];
    }
    var held := [Hold(StateLock(0), Reader)];
    assert [] + held == held;
    var s3 := WriteThen(s2, 1, BootLock(0), PreCreate(0, []), held, sh, Do(Provision(LATE_JOB)));
    s, a := Provisions(s3, 1, LATE_JOB);
  }

  lemma Provisions(s: State, t: nat, job: Job) returns (s': State, a: Action)
    requires Reachable(s) && Living(s) && t < |s.threads| && s.threads[t].code == Do(Provision(job))
    requires job.ImageBoot? && job.pod < |s.shared.pods| && s.shared.datas[s.shared.pods[job.pod].data].volumes == []
    ensures Reachable(s') && Living(s') && |s'.threads| == |s.threads|
    ensures s'.threads[t].code == Do(a) && Refs(s'.shared, a)
    ensures a.AttachNext? && a.rest == [] && a.job == job
    ensures s'.shared.pool == s.shared.pool && s'.shared.vmMap == s.shared.vmMap && s'.shared.pods == s.shared.pods
  {
    var sh := s.shared;
    a := AttachNext(|sh.datas|, sh.clients, [], job);
    var sh' := sh.(datas := sh.datas + [Data(true, true, EMPTY, [])], clients := sh.clients + 1);
    s' := Access(s, t, Provision(job), sh', Do(a));
  }

  /** A CreateContainer that looked up an image pod before its removal and got the stateLock after it boots a VM
      for the removed pod: the pod is live while its address waits in the pool for the next one. */
  lemma RemovedImagePodCanBoot() returns (ss: seq<State>, cs: seq<Choice>)
    ensures Trace(ss, cs)
    ensures var sh := ss[|cs|].shared;
            && sh.pool == ["a"] && sh.vmMap == map[]
            && |sh.pods| == 1 && sh.pods[0].addr == "a" && sh.pods[0].booted && sh.pods[0].client.Some?
  {
    var s, a := LateBootUnderWay();
    ss, cs := RunThrough(s, 1, a);
  }
}
