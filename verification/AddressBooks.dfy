/** Where every address of the pool is, whatever the interleaving: in the deque, carried by one handler,
    held by one listed pod, or lost to a failed boot. From it follows when a late delete is harmless. */
module AddressBooks {
  import opened Wrappers
  import opened EbsDevices
  import opened Protocol
  import opened LockOrder
  import opened OnceOnly

  /** The address a handler has shifted out of the pool and not yet put in vmMap. */
  function Carry(sh: Shared, a: Action): Option<string> {
    match a
    case Launch(addr, _) => Some(addr)
    case Insert(r) => if r < |sh.pods| then Some(sh.pods[r].addr) else None
    case _ =>
      match JobOf(a)
      case Some(NewPod(addr, _)) => Some(addr)
      case _ => None
  }

  ghost predicate At(sh: Shared, x: string, place: Place) { x in sh.ledger && sh.ledger[x] == place }

  ghost predicate Claim(sh: Shared, t: nat, a: Action) {
    && Refs(sh, a)
    && (Carry(sh, a).Some? ==> At(sh, Carry(sh, a).value, Carried(t)))
    && (a.Insert? ==> !sh.pods[a.pod].listed)
    && (a.RemoveBody? ==> sh.pods[a.pod].listed)
    && (a.Release? ==> sh.pods[a.pod].listed && sh.pods[a.pod].client.None? && At(sh, sh.pods[a.pod].addr, Held(a.pod)))
  }

  /** The pool is duplicate-free and holds exactly the free addresses; a listed pod has an address of the ledger
      and with a client holds it, and a pod not listed yet has a client; vmMap lists pods under their own addresses,
      and a holder of an address is never shadowed there. */
  ghost predicate Balanced(sh: Shared) {
    && NoDup(sh.pool)
    && (forall x :: x in sh.pool <==> At(sh, x, Free))
    && (forall x | x in sh.ledger && sh.ledger[x].Held? ::
          var r := sh.ledger[x].pod; r < |sh.pods| && sh.pods[r].addr == x && sh.pods[r].listed)
    && (forall r | 0 <= r < |sh.pods| && sh.pods[r].listed :: sh.pods[r].addr in sh.ledger)
    && (forall r | 0 <= r < |sh.pods| && sh.pods[r].listed && sh.pods[r].client.Some? ::
        At(sh, sh.pods[r].addr, Held(r)))
    && (forall r | 0 <= r < |sh.pods| && !sh.pods[r].listed :: sh.pods[r].client.Some?)
    && (forall id | id in sh.vmMap ::
          var r := sh.vmMap[id]; r < |sh.pods| && sh.pods[r].addr == id && sh.pods[r].listed)
    && (forall x | x in sh.ledger && sh.ledger[x].Held? && x in sh.vmMap :: sh.vmMap[x] == sh.ledger[x].pod)
  }

  ghost predicate Carries(s: State, t: nat, x: string) {
    t < |s.threads| && Tail(s.threads[t].code).Some? && Carry(s.shared, Tail(s.threads[t].code).value) == Some(x)
  }

  ghost predicate Releases(s: State, t: nat, r: nat) {
    t < |s.threads| && Tail(s.threads[t].code) == Some(Release(r))
  }

  ghost predicate ThreadClaim(sh: Shared, t: nat, th: Thread) {
    Tail(th.code).Some? ==> Claim(sh, t, Tail(th.code).value)
  }

  ghost predicate Books(s: State) {
    && Balanced(s.shared)
    && (forall t | 0 <= t < |s.threads| :: ThreadClaim(s.shared, t, s.threads[t]))
    && (forall x | x in s.shared.ledger && s.shared.ledger[x].Carried? :: Carries(s, s.shared.ledger[x].thread, x))
    && (forall x | x in s.shared.ledger && s.shared.ledger[x].Held?
        && s.shared.pods[s.shared.ledger[x].pod].client.None? ::
          exists t :: Releases(s, t, s.shared.ledger[x].pod))
  }

  /** The end of the boot of an image pod that was removed before (PreCreateContainer does not look at the client). */
  ghost predicate LateBoot(sh: Shared, a: Action) {
    && a.AttachNext? && a.rest == [] && a.job.ImageBoot?
    && a.job.pod < |sh.pods| && sh.pods[a.job.pod].client.None?
  }

  /** The one step that upsets the books. */
  ghost predicate BootsRemoved(s: State, ch: Choice) {
    && ch.Run? && ch.thread < |s.threads| && s.threads[ch.thread].code.Do?
    && LateBoot(s.shared, s.threads[ch.thread].code.action)
  }

  // ---------- Each kind of access keeps the books balanced ----------

  /** Nothing that the books are about changes, except that pods may be added and clients dropped. */
  ghost predicate SameBooks(sh: Shared, sh': Shared) {
    && sh'.pool == sh.pool && sh'.ledger == sh.ledger && sh'.vmMap == sh.vmMap
    && |sh.pods| <= |sh'.pods|
    && (forall r | 0 <= r < |sh.pods| ::
          && sh'.pods[r].addr == sh.pods[r].addr && sh'.pods[r].listed == sh.pods[r].listed
          && (sh'.pods[r].client.Some? ==> sh.pods[r].client.Some?))
    && (forall r | |sh.pods| <= r < |sh'.pods| :: !sh'.pods[r].listed)
    && (forall r | 0 <= r < |sh'.pods| && !sh'.pods[r].listed :: sh'.pods[r].client.Some?)
  }

  lemma FrameBalanced(sh: Shared, sh': Shared)
    requires Balanced(sh) && SameBooks(sh, sh')
    ensures Balanced(sh')
  {
    forall x ensures x in sh'.pool <==> At(sh', x, Free) { assert At(sh', x, Free) == At(sh, x, Free); }
    forall r | 0 <= r < |sh'.pods| && sh'.pods[r].listed && sh'.pods[r].client.Some?
      ensures At(sh', sh'.pods[r].addr, Held(r))
    {
      assert At(sh, sh.pods[r].addr, Held(r));
    }
  }

  lemma ShiftBalanced(sh: Shared, t: nat)
    requires Balanced(sh) && sh.pool != []
    ensures Balanced(sh.(pool := sh.pool[1..], ledger := sh.ledger[sh.pool[0] := Carried(t)], shifts := sh.shifts + 1))
  {
    var sh' := sh.(pool := sh.pool[1..], ledger := sh.ledger[sh.pool[0] := Carried(t)], shifts := sh.shifts + 1);
    assert sh.pool[0] in sh.pool;
    assert At(sh, sh.pool[0], Free);
    forall x ensures x in sh'.pool <==> At(sh', x, Free) {
      assert At(sh, x, Free) <==> x in sh.pool;
      assert sh.pool == [sh.pool[0]] + sh.pool[1..];
    }
    forall r | 0 <= r < |sh'.pods| && sh'.pods[r].listed && sh'.pods[r].client.Some?
      ensures At(sh', sh'.pods[r].addr, Held(r))
    {
      assert At(sh, sh.pods[r].addr, Held(r));
    }
  }

  lemma LoseBalanced(sh: Shared, t: nat, addr: string)
    requires Balanced(sh) && At(sh, addr, Carried(t))
    ensures Balanced(sh.(ledger := sh.ledger[addr := Lost]))
  {
    var sh' := sh.(ledger := sh.ledger[addr := Lost]);
    forall x ensures x in sh'.pool <==> At(sh', x, Free) { assert At(sh, x, Free) <==> x in sh.pool; }
    forall r | 0 <= r < |sh'.pods| && sh'.pods[r].listed && sh'.pods[r].client.Some?
      ensures At(sh', sh'.pods[r].addr, Held(r))
    {
      assert At(sh, sh.pods[r].addr, Held(r));
    }
  }

  lemma InsertBalanced(sh: Shared, t: nat, r: nat)
    requires Balanced(sh) && r < |sh.pods| && At(sh, sh.pods[r].addr, Carried(t))
    ensures Balanced(RunStep(sh, t, Insert(r)).0)
  {
    var sh' := RunStep(sh, t, Insert(r)).0;
    forall x ensures x in sh'.pool <==> At(sh', x, Free) { assert At(sh, x, Free) <==> x in sh.pool; }
    forall q | 0 <= q < |sh'.pods| && sh'.pods[q].listed && sh'.pods[q].client.Some?
      ensures At(sh', sh'.pods[q].addr, Held(q))
    {
      if q != r { assert At(sh, sh.pods[q].addr, Held(q)); }
    }
  }

  lemma ReleaseBalanced(sh: Shared, r: nat, o: Oracle)
    requires Balanced(sh) && r < |sh.pods| && At(sh, sh.pods[r].addr, Held(r)) && sh.pods[r].client.None?
    ensures Balanced(RemoveStep(sh, Release(r), o).0)
  {
    var sh' := RemoveStep(sh, Release(r), o).0;
    assert !At(sh, sh.pods[r].addr, Free);
    forall x ensures x in sh'.pool <==> At(sh', x, Free) { assert At(sh, x, Free) <==> x in sh.pool; }
    forall q | 0 <= q < |sh'.pods| && sh'.pods[q].listed && sh'.pods[q].client.Some?
      ensures At(sh', sh'.pods[q].addr, Held(q))
    {
      assert At(sh, sh.pods[q].addr, Held(q));
    }
  }

  lemma DeleteBalanced(sh: Shared, id: string)
    requires Balanced(sh)
    ensures Balanced(sh.(vmMap := sh.vmMap - {id}))
  {
    var sh' := sh.(vmMap := sh.vmMap - {id});
    forall x ensures x in sh'.pool <==> At(sh', x, Free) { assert At(sh, x, Free) == At(sh', x, Free); }
    forall r | 0 <= r < |sh'.pods| && sh'.pods[r].listed && sh'.pods[r].client.Some?
      ensures At(sh', sh'.pods[r].addr, Held(r))
    {
      assert At(sh, sh.pods[r].addr, Held(r));
    }
  }

  /** The accesses that move an address or an entry of vmMap. */
  predicate MovesBooks(a: Action) {
    a.Shift? || a.Insert? || a.Release? || a.Delete? || (a.Provision? && a.job.NewPod?)
  }

  lemma BootSameBooks(sh: Shared, t: nat, a: Action, o: Oracle)
    requires IsBoot(a) && WellFormed(sh) && Balanced(sh) && Claim(sh, t, a) && !MovesBooks(a) && !LateBoot(sh, a)
    ensures SameBooks(sh, BootStep(sh, a, o).0)
  {
    if a.AttachNext? { BootLoopSameBooks(sh, t, a, o); }
  }

  lemma BootLoopSameBooks(sh: Shared, t: nat, a: Action, o: Oracle)
    requires a.AttachNext? && WellFormed(sh) && Balanced(sh) && Claim(sh, t, a) && !LateBoot(sh, a)
    ensures SameBooks(sh, BootStep(sh, a, o).0)
  {
  }

  lemma AttachSameBooks(sh: Shared, t: nat, a: Action, o: Oracle)
    requires IsAttach(a) && Balanced(sh) && Refs(sh, a)
    ensures SameBooks(sh, AttachStep(sh, a, o).0)
  {
  }

  lemma StopSameBooks(sh: Shared, t: nat, a: Action, o: Oracle)
    requires IsStop(a) && WellFormed(sh) && Balanced(sh) && Refs(sh, a)
    ensures SameBooks(sh, StopStep(sh, a, o).0)
  {
  }

  lemma RunSameBooks(sh: Shared, t: nat, a: Action)
    requires IsRun(a) && WellFormed(sh) && Balanced(sh) && Refs(sh, a) && !MovesBooks(a)
    ensures SameBooks(sh, RunStep(sh, t, a).0)
  {
  }

  lemma RemoveSameBooks(sh: Shared, t: nat, a: Action, o: Oracle)
    requires IsRemove(a) && Balanced(sh) && Claim(sh, t, a) && !MovesBooks(a)
    ensures SameBooks(sh, RemoveStep(sh, a, o).0)
  {
  }

  lemma OthersSameBooks(sh: Shared, t: nat, a: Action, o: Oracle)
    requires WellFormed(sh) && Balanced(sh) && Claim(sh, t, a) && !MovesBooks(a) && !LateBoot(sh, a)
    ensures SameBooks(sh, Exec(sh, t, a, o).0)
  {
    if IsRun(a) { RunSameBooks(sh, t, a); }
    else if IsBoot(a) { BootSameBooks(sh, t, a, o); }
    else if IsAttach(a) { AttachSameBooks(sh, t, a, o); }
    else if IsStop(a) { StopSameBooks(sh, t, a, o); }
    else if IsRemove(a) { RemoveSameBooks(sh, t, a, o); }
    else { ReadOnly(sh, a, o); }
  }

  lemma RunBalanced(sh: Shared, t: nat, a: Action)
    requires IsRun(a) && Balanced(sh) && Claim(sh, t, a)
    ensures Balanced(RunStep(sh, t, a).0)
  {
    match a
    case Shift(_) => if sh.pool == [] { FrameBalanced(sh, RunStep(sh, t, a).0); } else { ShiftBalanced(sh, t); }
    case Insert(r) => InsertBalanced(sh, t, r);
    case Launch(_, _) => FrameBalanced(sh, RunStep(sh, t, a).0);
  }

  lemma ExecBalanced(sh: Shared, t: nat, a: Action, o: Oracle)
    requires WellFormed(sh) && Balanced(sh) && Claim(sh, t, a) && !LateBoot(sh, a)
    ensures Balanced(Exec(sh, t, a, o).0)
  {
    if IsRun(a) {
      RunBalanced(sh, t, a);
    } else if a.Provision? && a.job.NewPod? {
      assert Exec(sh, t, a, o) == BootStep(sh, a, o);
      if o.ok { FrameBalanced(sh, BootStep(sh, a, o).0); } else { LoseBalanced(sh, t, a.job.addr); }
    } else if a.Release? {
      assert Exec(sh, t, a, o) == RemoveStep(sh, a, o);
      ReleaseBalanced(sh, a.pod, o);
    } else if a.Delete? {
      assert Exec(sh, t, a, o) == RemoveStep(sh, a, o);
      DeleteBalanced(sh, sh.pods[a.pod].addr);
    } else {
      OthersSameBooks(sh, t, a, o);
      FrameBalanced(sh, Exec(sh, t, a, o).0);
    }
  }

  // ---------- The claim of the stepping handler's next access ----------

  /** What the next code claims. */
  ghost predicate Claims(sh: Shared, t: nat, code: Code) {
    Tail(code).Some? ==> Claim(sh, t, Tail(code).value)
  }

  lemma RunClaims(sh: Shared, t: nat, a: Action)
    requires IsRun(a) && WellFormed(sh) && Claim(sh, t, a)
    ensures var (sh', code) := RunStep(sh, t, a);
            sh'.panicked.Some? || Claims(sh', t, code)
  {
    Front(RunStep(sh, t, a).1);
  }

  lemma BootClaims(sh: Shared, t: nat, a: Action, o: Oracle)
    requires IsBoot(a) && WellFormed(sh) && Claim(sh, t, a)
    ensures var (sh', code) := BootStep(sh, a, o);
            Claims(sh', t, code)
  {
    Front(BootStep(sh, a, o).1);
  }

  lemma AttachClaims(sh: Shared, t: nat, a: Action, o: Oracle)
    requires IsAttach(a) && Claim(sh, t, a)
    ensures var (sh', code) := AttachStep(sh, a, o);
            Claims(sh', t, code)
  {
    if a.DecideAttach? { TryHasLetter(sh.datas[a.data].alloc, a.vol, a.device); }
  }

  lemma StopClaims(sh: Shared, t: nat, a: Action, o: Oracle)
    requires IsStop(a) && WellFormed(sh) && Claim(sh, t, a)
    ensures var (sh', code) := StopStep(sh, a, o);
            Claims(sh', t, code)
  {
    Front(StopStep(sh, a, o).1);
  }

  lemma RemoveClaims(sh: Shared, t: nat, a: Action, o: Oracle)
    requires IsRemove(a) && Balanced(sh) && Claim(sh, t, a)
    ensures var (sh', code) := RemoveStep(sh, a, o);
            sh'.panicked.Some? || Claims(sh', t, code)
  {
    Front(RemoveStep(sh, a, o).1);
  }

  lemma LookClaims(sh: Shared, t: nat, a: Action, o: Oracle)
    requires IsLook(a) && WellFormed(sh) && Refs(sh, a) && Fits(sh, a, o)
    requires forall id | id in sh.vmMap :: sh.vmMap[id] < |sh.pods| && sh.pods[sh.vmMap[id]].listed
    ensures var (sh', code) := ReadStep(sh, a, o);
            Claims(sh', t, code)
  {
    LookRefs(sh, a, o);
    if a.Lookup? { LookupClaims(sh, t, a, o); } else { Front(ReadStep(sh, a, o).1); }
  }

  lemma LookupClaims(sh: Shared, t: nat, a: Action, o: Oracle)
    requires a.Lookup? && WellFormed(sh)
    requires forall id | id in sh.vmMap :: sh.vmMap[id] < |sh.pods| && sh.pods[sh.vmMap[id]].listed
    ensures Claims(ReadStep(sh, a, o).0, t, ReadStep(sh, a, o).1)
  {
    Front(ReadStep(sh, a, o).1);
  }

  lemma LookRefs(sh: Shared, a: Action, o: Oracle)
    requires IsLook(a) && WellFormed(sh) && Refs(sh, a) && Fits(sh, a, o)
    ensures var (sh', code) := ReadStep(sh, a, o);
            Tail(code).Some? ==> Refs(sh', Tail(code).value)
  {
    LookFact(sh, a, o);
  }

  lemma ReadClaims(sh: Shared, t: nat, a: Action, o: Oracle)
    requires !IsRun(a) && !IsBoot(a) && !IsAttach(a) && !IsStop(a) && !IsRemove(a) && !IsLook(a)
    requires WellFormed(sh) && Claim(sh, t, a)
    ensures var (sh', code) := ReadStep(sh, a, o);
            Claims(sh', t, code)
  {
    Front(ReadStep(sh, a, o).1);
  }

  lemma ExecClaims(sh: Shared, t: nat, a: Action, o: Oracle)
    requires WellFormed(sh) && Balanced(sh) && Claim(sh, t, a) && Fits(sh, a, o)
    ensures var (sh', code) := Exec(sh, t, a, o);
            sh'.panicked.Some? || Claims(sh', t, code)
  {
    if IsRun(a) { RunClaims(sh, t, a); }
    else if IsBoot(a) { BootClaims(sh, t, a, o); }
    else if IsAttach(a) { AttachClaims(sh, t, a, o); }
    else if IsStop(a) { StopClaims(sh, t, a, o); }
    else if IsRemove(a) { RemoveClaims(sh, t, a, o); }
    else if IsLook(a) { LookClaims(sh, t, a, o); }
    else { ReadClaims(sh, t, a, o); }
  }

  // ---------- The claims of the other handlers ----------

  /** Where an address can go in one step of thread t: out of the pool, out of t's hands, or from a removed
      pod back to the pool. The set of addresses never changes. */
  ghost predicate LedgerMoves(sh: Shared, sh': Shared, t: nat, a: Action) {
    && sh'.ledger.Keys == sh.ledger.Keys
    && (forall x | x in sh.ledger :: sh'.ledger[x] == sh.ledger[x]
                                     || (sh.ledger[x] == Free && a.Shift? && sh'.ledger[x] == Carried(t))
                                     || (sh.ledger[x] == Carried(t)
                                         && (sh'.ledger[x] == Lost || (a.Insert? && sh'.ledger[x] == Held(a.pod))))
                                     || (a.Release? && sh.ledger[x] == Held(a.pod) && sh'.ledger[x] == Free))
  }

  lemma ExecLedgerMoves(sh: Shared, t: nat, a: Action, o: Oracle)
    requires WellFormed(sh) && Balanced(sh) && Claim(sh, t, a)
    ensures LedgerMoves(sh, Exec(sh, t, a, o).0, t, a)
  {
    if a.Shift? && sh.pool != [] {
      assert sh.pool[0] in sh.pool && At(sh, sh.pool[0], Free);
    } else if MovesBooks(a) {
      if a.Provision? { assert Exec(sh, t, a, o) == BootStep(sh, a, o); }
      if IsRemove(a) { assert Exec(sh, t, a, o) == RemoveStep(sh, a, o); }
    } else if LateBoot(sh, a) {
      assert Exec(sh, t, a, o) == BootStep(sh, a, o);
    } else {
      OthersSameBooks(sh, t, a, o);
    }
  }

  lemma ClaimKept(sh: Shared, sh': Shared, t: nat, a: Action, u: nat, b: Action)
    requires t != u && Claim(sh, t, a) && Claim(sh, u, b)
    requires Changes(sh, sh', a) && LedgerMoves(sh, sh', t, a)
    requires b.Release? ==> a != Release(b.pod) && !BootEnd(a, b.pod)
    ensures Claim(sh', u, b)
  {
    RefsKept(sh, sh', a, b);
    if Carry(sh, b).Some? { assert At(sh', Carry(sh, b).value, Carried(u)); }
    if b.Release? { assert At(sh', sh.pods[b.pod].addr, Held(b.pod)); }
  }

  lemma RefsKept(sh: Shared, sh': Shared, a: Action, b: Action)
    requires Changes(sh, sh', a) && Refs(sh, b)
    ensures Refs(sh', b)
    ensures Carry(sh', b) == Carry(sh, b)
  {
  }

  /** What the stateLock of a pod keeps apart: the release of its address from its boot and from another release. */
  lemma StateLockExcludes(s: State, t: nat, u: nat, b: Action)
    requires LockInv(s) && t < |s.threads| && u < |s.threads| && t != u
    requires ThreadFact(s.shared, s.threads[u]) && Tail(s.threads[u].code) == Some(b)
    requires s.threads[t].code.Do?
    ensures b.Release? ==> s.threads[t].code.action != Release(b.pod) && !BootEnd(s.threads[t].code.action, b.pod)
  {
    GuardsAreHeld(s.threads[t].code.action);
    if b.Release? { GuardExcludes(s, t, u, Hold(StateLock(b.pod), Writer)); }
  }

  lemma OthersKeepClaims(s: State, t: nat, o: Oracle, u: nat)
    requires Enabled(s, Run(t, o)) && LockInv(s) && Books(s) && s.threads[t].code.Do?
    requires u < |s.threads| && t != u && ThreadFact(s.shared, s.threads[u])
    ensures ThreadClaim(Exec(s.shared, t, s.threads[t].code.action, o).0, u, s.threads[u])
  {
    var sh, a := s.shared, s.threads[t].code.action;
    var sh' := Exec(sh, t, a, o).0;
    if Tail(s.threads[u].code).Some? {
      var b := Tail(s.threads[u].code).value;
      assert ThreadClaim(sh, t, s.threads[t]) && ThreadClaim(sh, u, s.threads[u]);
      StateLockExcludes(s, t, u, b);
      ExecChanges(sh, t, a, o);
      ExecLedgerMoves(sh, t, a, o);
      ClaimKept(sh, sh', t, a, u, b);
    }
  }

  // ---------- Nothing is carried or being released without a handler ----------

  /** What thread t carries after a step it carries by its next access. */
  ghost predicate StillCarried(sh': Shared, t: nat, code: Code, x: string) {
    At(sh', x, Carried(t)) ==> Tail(code).Some? && Carry(sh', Tail(code).value) == Some(x)
  }

  lemma RunCarries(sh: Shared, t: nat, a: Action, x: string)
    requires IsRun(a) && Claim(sh, t, a)
    requires At(sh, x, Carried(t)) ==> Carry(sh, a) == Some(x)
    ensures var (sh', code) := RunStep(sh, t, a);
            sh'.panicked.Some? || StillCarried(sh', t, code, x)
  {
    Front(RunStep(sh, t, a).1);
  }

  lemma BootCarries(sh: Shared, t: nat, a: Action, o: Oracle, x: string)
    requires IsBoot(a) && WellFormed(sh) && Claim(sh, t, a)
    requires At(sh, x, Carried(t)) ==> Carry(sh, a) == Some(x)
    ensures var (sh', code) := BootStep(sh, a, o);
            StillCarried(sh', t, code, x)
  {
    Front(BootStep(sh, a, o).1);
  }

  lemma AttachCarries(sh: Shared, t: nat, a: Action, o: Oracle, x: string)
    requires IsAttach(a) && Claim(sh, t, a)
    requires At(sh, x, Carried(t)) ==> Carry(sh, a) == Some(x)
    ensures var (sh', code) := AttachStep(sh, a, o);
            sh'.panicked.Some? || StillCarried(sh', t, code, x)
  {
    Front(AttachStep(sh, a, o).1);
  }

  lemma CarryMoves(sh: Shared, t: nat, a: Action, o: Oracle, x: string)
    requires WellFormed(sh) && Balanced(sh) && Claim(sh, t, a)
    requires At(sh, x, Carried(t)) ==> Carry(sh, a) == Some(x)
    requires Exec(sh, t, a, o).0.panicked.None?
    ensures var (sh', code) := Exec(sh, t, a, o);
            StillCarried(sh', t, code, x)
  {
    if IsRun(a) { RunCarries(sh, t, a, x); }
    else if IsBoot(a) { BootCarries(sh, t, a, o, x); }
    else if IsAttach(a) { AttachCarries(sh, t, a, o, x); }
    else { ExecLedgerMoves(sh, t, a, o); }
  }

  lemma RemoveMoves(sh: Shared, t: nat, a: Action, o: Oracle, r: nat)
    requires WellFormed(sh) && Balanced(sh) && Claim(sh, t, a)
    requires r < |sh.pods| && sh.pods[r].client.Some?
    requires Exec(sh, t, a, o).0.panicked.None?
    ensures var (sh', code) := Exec(sh, t, a, o);
            r < |sh'.pods| && (sh'.pods[r].client.None? ==> Tail(code) == Some(Release(r)))
  {
    ExecChanges(sh, t, a, o);
    if a == RemoveBody(r) {
      assert Exec(sh, t, a, o) == RemoveStep(sh, a, o);
      Front(RemoveStep(sh, a, o).1);
    }
  }

  lemma AccessKeepsBooks(s: State, t: nat, o: Oracle)
    requires Enabled(s, Run(t, o)) && LockInv(s) && Once(s) && Books(s) && s.threads[t].code.Do?
    requires !BootsRemoved(s, Run(t, o)) && Next(s, Run(t, o)).shared.panicked.None?
    ensures Books(Next(s, Run(t, o)))
  {
    var s' := Next(s, Run(t, o));
    var sh, a := s.shared, s.threads[t].code.action;
    assert ThreadClaim(sh, t, s.threads[t]);
    ExecBalanced(sh, t, a, o);
    ExecClaims(sh, t, a, o);
    forall u | 0 <= u < |s'.threads| ensures ThreadClaim(s'.shared, u, s'.threads[u]) {
      if u != t { OthersKeepClaims(s, t, o, u); }
    }
    AccessKeepsCarriers(s, t, o);
    AccessKeepsReleasers(s, t, o);
  }

  lemma AccessKeepsCarriers(s: State, t: nat, o: Oracle)
    requires Enabled(s, Run(t, o)) && Books(s) && s.threads[t].code.Do?
    requires Next(s, Run(t, o)).shared.panicked.None?
    ensures var s' := Next(s, Run(t, o));
            forall x | x in s'.shared.ledger && s'.shared.ledger[x].Carried? ::
                Carries(s', s'.shared.ledger[x].thread, x)
  {
    var s' := Next(s, Run(t, o));
    var sh, sh', a := s.shared, s'.shared, s.threads[t].code.action;
    assert ThreadClaim(sh, t, s.threads[t]);
    ExecLedgerMoves(sh, t, a, o);
    ExecChanges(sh, t, a, o);
    forall x | x in sh'.ledger && sh'.ledger[x].Carried? ensures Carries(s', sh'.ledger[x].thread, x) {
      var k := sh'.ledger[x].thread;
      if k == t {
        CarryMoves(sh, t, a, o, x);
      } else {
        assert sh.ledger[x] == Carried(k) && Carries(s, k, x);
        RefsKept(sh, sh', a, Tail(s.threads[k].code).value);
      }
    }
  }

  lemma AccessKeepsReleasers(s: State, t: nat, o: Oracle)
    requires Enabled(s, Run(t, o)) && Books(s) && s.threads[t].code.Do?
    requires Next(s, Run(t, o)).shared.panicked.None? && Balanced(Next(s, Run(t, o)).shared)
    ensures var s' := Next(s, Run(t, o));
            forall x | x in s'.shared.ledger && s'.shared.ledger[x].Held?
                       && s'.shared.pods[s'.shared.ledger[x].pod].client.None? ::
              exists u :: Releases(s', u, s'.shared.ledger[x].pod)
  {
    var s' := Next(s, Run(t, o));
    var sh := s'.shared;
    forall x | x in sh.ledger && sh.ledger[x].Held? && sh.pods[sh.ledger[x].pod].client.None?
      ensures exists u :: Releases(s', u, sh.ledger[x].pod)
    {
      AccessKeepsReleaser(s, t, o, x);
    }
  }

  lemma AccessKeepsReleaser(s: State, t: nat, o: Oracle, x: string)
    requires Enabled(s, Run(t, o)) && Books(s) && s.threads[t].code.Do?
    requires Next(s, Run(t, o)).shared.panicked.None? && Balanced(Next(s, Run(t, o)).shared)
    requires var sh' := Next(s, Run(t, o)).shared;
             x in sh'.ledger && sh'.ledger[x].Held? && sh'.pods[sh'.ledger[x].pod].client.None?
    ensures exists u :: Releases(Next(s, Run(t, o)), u, Next(s, Run(t, o)).shared.ledger[x].pod)
  {
    var s' := Next(s, Run(t, o));
    var sh, sh', a := s.shared, s'.shared, s.threads[t].code.action;
    var r := sh'.ledger[x].pod;
    assert ThreadClaim(sh, t, s.threads[t]);
    ExecLedgerMoves(sh, t, a, o);
    ExecChanges(sh, t, a, o);
    if r < |sh.pods| && sh.pods[r].client.Some? {
      RemoveMoves(sh, t, a, o, r);
      assert Releases(s', t, r);
    } else {
      assert sh.ledger[x] == Held(r);
      var u: nat :| Releases(s, u, r);
      OthersRelease(s, t, o, u, r);
    }
  }

  /** The release of an address that stays with its pod is still to come. */
  lemma OthersRelease(s: State, t: nat, o: Oracle, u: nat, r: nat)
    requires Enabled(s, Run(t, o)) && Books(s) && s.threads[t].code.Do? && Releases(s, u, r)
    requires r < |s.shared.pods| && var x := s.shared.pods[r].addr; At(Next(s, Run(t, o)).shared, x, Held(r))
    ensures Releases(Next(s, Run(t, o)), u, r)
  {
    if u == t { ReleaseFrees(s, t, o, r); }
  }

  lemma ReleaseFrees(s: State, t: nat, o: Oracle, r: nat)
    requires Enabled(s, Run(t, o)) && s.threads[t].code == Do(Release(r))
    ensures At(Next(s, Run(t, o)).shared, s.shared.pods[r].addr, Free)
  {
    assert Exec(s.shared, t, Release(r), o) == RemoveStep(s.shared, Release(r), o);
  }

  /** In every interleaving, a step keeps the books exactly when it is not the boot of a removed pod; and that
      boot already upsets the balance of pool, ledger, pods and vmMap. */
  lemma StepKeepsBooks(s: State, ch: Choice)
    requires Enabled(s, ch) && LockInv(s) && Once(s) && Books(s)
    ensures Balanced(Next(s, ch).shared) <==> !BootsRemoved(s, ch)
    ensures Next(s, ch).shared.panicked.None? ==> (Books(Next(s, ch)) <==> !BootsRemoved(s, ch))
  {
    if BootsRemoved(s, ch) {
      LateBootFindsAddressGone(s, ch);
      var r, sh' := s.threads[ch.thread].code.action.job.pod, Next(s, ch).shared;
      BootRestoresClient(s.shared, ch.thread, s.threads[ch.thread].code.action, ch.oracle);
      assert sh'.pods[r].listed && sh'.pods[r].client.Some? && !At(sh', sh'.pods[r].addr, Held(r));
    } else if ch.Run? && s.threads[ch.thread].code.Do? {
      assert ThreadClaim(s.shared, ch.thread, s.threads[ch.thread]);
      ExecBalanced(s.shared, ch.thread, s.threads[ch.thread].code.action, ch.oracle);
      if Next(s, ch).shared.panicked.None? { AccessKeepsBooks(s, ch.thread, ch.oracle); }
    } else {
      LockingKeepsBooks(s, ch);
    }
  }

  lemma BootRestoresClient(sh: Shared, t: nat, a: Action, o: Oracle)
    requires WellFormed(sh) && Refs(sh, a) && LateBoot(sh, a)
    ensures var sh', r := Exec(sh, t, a, o).0, a.job.pod;
            && sh'.ledger == sh.ledger && r < |sh'.pods|
            && sh'.pods[r].client.Some?
            && sh'.pods[r].addr == sh.pods[r].addr && sh'.pods[r].listed == sh.pods[r].listed
  {
    assert Exec(sh, t, a, o) == BootStep(sh, a, o);
  }

  /** A removed pod does not hold its address while it is booted: nobody is on the way to give it back. */
  lemma LateBootFindsAddressGone(s: State, ch: Choice)
    requires Enabled(s, ch) && LockInv(s) && Once(s) && Books(s) && BootsRemoved(s, ch)
    ensures var r := s.threads[ch.thread].code.action.job.pod;
            s.shared.pods[r].listed && !At(s.shared, s.shared.pods[r].addr, Held(r))
  {
    var r := s.threads[ch.thread].code.action.job.pod;
    if At(s.shared, s.shared.pods[r].addr, Held(r)) {
      var u: nat :| Releases(s, u, r);
      StateLockExcludes(s, ch.thread, u, Release(r));
    }
  }

  lemma StartClaim(sh: Shared, t: nat, req: Request)
    ensures ThreadClaim(sh, t, Thread(Start(req), []))
  {
  }

  lemma LockingKeepsBooks(s: State, ch: Choice)
    requires Enabled(s, ch) && Books(s)
    requires ch.Spawn? || !s.threads[ch.thread].code.Do?
    ensures Books(Next(s, ch))
  {
    var s' := Next(s, ch);
    if ch.Spawn? { StartClaim(s.shared, |s.threads|, ch.request); }
    assert forall u | 0 <= u < |s.threads| :: Tail(s'.threads[u].code) == Tail(s.threads[u].code);
    assert forall u: nat, x :: Carries(s, u, x) ==> Carries(s', u, x);
    assert forall u: nat, r :: Releases(s, u, r) ==> Releases(s', u, r);
  }
}
