/** What holds in every run of the concurrent handlers, from the state after importSandboxes on. */
module ProtocolRuns {
  import opened Wrappers
  import opened EbsDevices
  import opened Protocol
  import opened LockOrder
  import opened OnceOnly
  import opened AddressBooks
  import S = Sandboxes

  ghost predicate Follows(ss: seq<State>, cs: seq<Choice>, i: nat)
    requires |ss| == |cs| + 1 && i < |cs|
  {
    Enabled(ss[i], cs[i]) && ss[i + 1] == Next(ss[i], cs[i])
  }

  /** A run: ss[i + 1] follows ss[i] by choice cs[i]. Only its last state can be that of a dead process. */
  ghost predicate Trace(ss: seq<State>, cs: seq<Choice>) {
    && |ss| == |cs| + 1
    && Init(ss[0])
    && forall i | 0 <= i < |cs| :: Follows(ss, cs, i)
  }

  /** Step ch is the access a of thread t. */
  ghost predicate Accesses(s: State, ch: Choice, t: nat, a: Action) {
    ch.Run? && ch.thread == t && t < |s.threads| && s.threads[t].code == Do(a)
  }

  // ---------- The invariants reach every state ----------

  lemma InitInvariants(s: State)
    requires Init(s)
    ensures LockInv(s) && Once(s) && Books(s)
  {
    var sh := s.shared;
    forall x ensures x in sh.pool <==> At(sh, x, Free) {}
  }

  lemma {:induction false} Invariants(ss: seq<State>, cs: seq<Choice>, i: nat)
    requires Trace(ss, cs) && i < |ss|
    ensures Once(ss[i]) && (ss[i].shared.panicked.None? ==> LockInv(ss[i]))
    decreases i
  {
    if i == 0 {
      InitInvariants(ss[0]);
    } else {
      Invariants(ss, cs, i - 1);
      assert Follows(ss, cs, i - 1);
      StepKeepsOnce(ss[i - 1], cs[i - 1]);
      StepKeepsLockInv(ss[i - 1], cs[i - 1]);
    }
  }

  /** No boot of an image pod ends after the pod's removal in the first i steps. */
  ghost predicate NoLateBoot(ss: seq<State>, cs: seq<Choice>, i: nat)
    requires i <= |cs| && |ss| == |cs| + 1
  {
    forall j | 0 <= j < i :: !BootsRemoved(ss[j], cs[j])
  }

  lemma {:induction false} BooksInvariant(ss: seq<State>, cs: seq<Choice>, i: nat)
    requires Trace(ss, cs) && i < |ss| && NoLateBoot(ss, cs, i)
    requires ss[i].shared.panicked.None?
    ensures Books(ss[i])
    decreases i
  {
    if i == 0 {
      InitInvariants(ss[0]);
    } else {
      assert Follows(ss, cs, i - 1);
      BooksInvariant(ss, cs, i - 1);
      Invariants(ss, cs, i - 1);
      StepKeepsBooks(ss[i - 1], cs[i - 1]);
    }
  }

  // ---------- Deadlock freedom ----------

  /** A walk of vmMap exists. */
  lemma {:induction false} Walk(m: map<string, nat>) returns (order: seq<nat>)
    ensures |order| == |m| && forall r :: r in order <==> r in m.Values
    decreases |m|
  {
    if m == map[] {
      order := [];
    } else {
      var id :| id in m;
      var rest := m - {id};
      assert m == rest[id := m[id]];
      assert m.Keys == rest.Keys + {id};
      assert |m| == |m.Keys| && |rest| == |rest.Keys|;
      var tail := Walk(rest);
      order := [m[id]] + tail;
      forall r ensures r in order <==> r in m.Values {
        if r in m.Values { var k :| k in m && m[k] == r; if k != id { assert k in rest && rest[k] == r; } }
        if r in rest.Values { var k :| k in rest && rest[k] == r; assert k in m && m[k] == r; }
      }
    }
  }

  /** In every reachable state of a living process, no set of handlers waits for each other in a circle,
      and some handler can go on unless all have returned. */
  lemma DeadlockFree(ss: seq<State>, cs: seq<Choice>, i: nat)
    requires Trace(ss, cs) && i < |ss| && ss[i].shared.panicked.None?
    ensures forall d: set<nat> :: !Circle(ss[i], d)
    ensures !AllDone(ss[i]) ==> exists t, o :: Enabled(ss[i], Run(t, o))
  {
    Invariants(ss, cs, i);
    forall d: set<nat> ensures !Circle(ss[i], d) { NoWaitCycle(ss[i], d); }
    if !AllDone(ss[i]) { var t, o := SomeoneMoves(ss[i]); }
  }

  ghost function Unfinished(s: State): set<nat> { set u: nat | u < |s.threads| && !s.threads[u].code.Done? }

  lemma SomeUnblocked(s: State, d: set<nat>) returns (t: nat)
    requires Upward(s) && d != {} && forall u | u in d :: u < |s.threads|
    ensures t in d && forall u | u in d :: !Blocks(s, u, t)
  {
    UpwardHasNoCircle(s, d);
    t :| t in d && forall u :: u in d ==> !Blocks(s, u, t);
  }

  lemma Unblocked(s: State) returns (t: nat)
    requires Upward(s) && !AllDone(s)
    ensures t < |s.threads| && !s.threads[t].code.Done? && forall u: nat :: !Blocks(s, u, t)
  {
    var k :| 0 <= k < |s.threads| && !s.threads[k].code.Done?;
    assert k in Unfinished(s);
    t := SomeUnblocked(s, Unfinished(s));
    assert forall u: nat :: Blocks(s, u, t) ==> u in Unfinished(s);
  }

  lemma SomeoneMoves(s: State) returns (t: nat, o: Oracle)
    requires s.shared.panicked.None? && LockInv(s) && Once(s) && !AllDone(s)
    ensures Enabled(s, Run(t, o))
  {
    WaitsLeadUpward(s);
    t := Unblocked(s);
    var order := Walk(s.shared.vmMap);
    o := Oracle(true, 0, order);
    assert ThreadFact(s.shared, s.threads[t]) && ThreadOk(s.threads[t]);
    if s.threads[t].code.Unlock? { assert Granted(s.threads[t]) == s.threads[t].held; }
  }

  // ---------- Data races ----------

  /** The data that handlers share: the pool, vmMap, the fields of a pod and those of a providerData. */
  datatype Datum = PoolOf | MapOf | PodOf(pod: nat) | DataOf(data: nat)

  /** What an access reads or writes of it. The end of an image boot writes its pod, but under a read lock. */
  predicate Alters(a: Action, x: Datum) {
    match x
    case PoolOf => a.Shift? || a.Release?
    case MapOf => a.Insert? || a.Delete?
    case PodOf(r) =>
      (a.StopBegin? || a.StopLoop? || a.DetachAll? || a.RemoveBody? || a.Release? || a.Delete?) && a.pod == r
    case DataOf(d) => (a.DecideAttach? || a.CloudAttach? || a.DetachAll? || a.NeedMount?) && a.data == d
  }

  predicate ReadsPod(a: Action) {
    a.StatusBody? || a.Visit? || a.PreCreate? || a.ContBegin? || a.MountNext? || a.NeedMount? || a.CallBody?
  }

  predicate Uses(a: Action, x: Datum) {
    || Alters(a, x)
    || (x.MapOf? && (a.Lookup? || a.CopyMap?))
    || (x.PodOf? && BootsImage(a) && Booting(a) == x.pod)
    || (x.PodOf? && IsAttach(a) && a.loop.MountLoop? && a.loop.pod == x.pod)
    || (x.PodOf? && ReadsPod(a) && a.pod == x.pod)
  }

  /** The lock that guards it. */
  function GuardOf(x: Datum): Lock {
    match x
    case PoolOf => DequeLock
    case MapOf => VmMapLock
    case PodOf(r) => StateLock(r)
    case DataOf(d) => DataLock(d)
  }

  lemma UsesUnderGuard(a: Action, x: Datum)
    ensures Alters(a, x) ==> Hold(GuardOf(x), Writer) in HeldAt(a)
    ensures Uses(a, x) ==> Hold(GuardOf(x), Reader) in HeldAt(a) || Hold(GuardOf(x), Writer) in HeldAt(a)
  {
    if |HeldAt(a)| > 0 { assert HeldAt(a)[0] in HeldAt(a) && HeldAt(a)[|HeldAt(a)| - 1] in HeldAt(a); }
  }

  /** In no state of any run are two handlers at accesses of which one writes what the other uses; so nothing is read or
      written while it is being written, and a pod's stop and removal are alone with it. Two image boots of one pod are
      kept apart as well. */
  lemma NoRaces(ss: seq<State>, cs: seq<Choice>, i: nat, t: nat, u: nat, a: Action, b: Action, x: Datum)
    requires Trace(ss, cs) && i < |ss| && ss[i].shared.panicked.None?
    requires t < |ss[i].threads| && u < |ss[i].threads| && t != u
    requires ss[i].threads[t].code == Do(a) && ss[i].threads[u].code == Do(b)
    ensures !(Alters(a, x) && Uses(b, x))
    ensures !(BootsImage(a) && BootsImage(b) && Booting(a) == Booting(b))
  {
    Invariants(ss, cs, i);
    var s := ss[i];
    assert ThreadOk(s.threads[t]) && ThreadOk(s.threads[u]);
    assert s.threads[t].held == HeldAt(a) && s.threads[u].held == HeldAt(b) by {
      assert Granted(s.threads[t]) == s.threads[t].held && Granted(s.threads[u]) == s.threads[u].held;
    }
    UsesUnderGuard(a, x);
    UsesUnderGuard(b, x);
    if Alters(a, x) && Uses(b, x) { HoldsExclude(s, t, u, GuardOf(x)); }
    GuardsAreHeld(a);
    GuardsAreHeld(b);
    if BootsImage(a) && BootsImage(b) && Booting(a) == Booting(b) { HoldsExclude(s, t, u, BootLock(Booting(a))); }
  }

  lemma HoldsExclude(s: State, t: nat, u: nat, l: Lock)
    requires Excludes(s) && t < |s.threads| && u < |s.threads| && t != u
    ensures !(Hold(l, Writer) in s.threads[t].held
              && (Hold(l, Reader) in s.threads[u].held || Hold(l, Writer) in s.threads[u].held))
  {
    if Hold(l, Writer) in s.threads[t].held {
      assert Writes(s, t, l) && Slot(s, t, l);
      assert Hold(l, Reader) in s.threads[u].held ==> Reads(s, u, l);
      assert Hold(l, Writer) in s.threads[u].held ==> Slot(s, u, l);
    }
  }

  // ---------- At most one boot, at most one attach ----------

  /** The step in which a CreateContainer gets past PreCreateContainer of image pod r with a booted VM. */
  ghost predicate Boots(s: State, ch: Choice, r: nat) {
    exists t, a :: Accesses(s, ch, t, a) && BootEnd(a, r)
  }

  /** The step in which the cloud accepts volume v for the VM of providerData d. */
  ghost predicate Attaches(s: State, ch: Choice, d: nat, v: string) {
    ch.Run? && ch.oracle.ok && exists t, a :: Accesses(s, ch, t, a) && a.CloudAttach? && a.data == d && a.vol == v
  }

  /** Only the end of its boot replaces a pod's providerData or gives it a client: those of the VM it booted. That
      step finds the pod unbooted and leaves it booted; nothing else touches Booted. */
  lemma OnlyTheBootReplaces(ss: seq<State>, cs: seq<Choice>, i: nat, r: nat)
    requires Trace(ss, cs) && i < |cs| && r < |ss[i].shared.pods|
    ensures r < |ss[i + 1].shared.pods|
    ensures var p, p' := ss[i].shared.pods[r], ss[i + 1].shared.pods[r];
            if Boots(ss[i], cs[i], r) then
              var a := ss[i].threads[cs[i].thread].code.action;
              && !p.booted && p' == p.(booted := true, client := Some(a.client), data := a.data)
              && a.data < |ss[i + 1].shared.datas| && ss[i + 1].shared.datas[a.data].instance
            else p'.booted == p.booted && p'.data == p.data && (p'.client == p.client || p'.client.None?)
  {
    Invariants(ss, cs, i);
    var s, ch := ss[i], cs[i];
    assert Follows(ss, cs, i);
    if ch.Run? && s.threads[ch.thread].code.Do? {
      var a := s.threads[ch.thread].code.action;
      assert Accesses(s, ch, ch.thread, a);
      assert ThreadFact(s.shared, s.threads[ch.thread]);
      ExecChanges(s.shared, ch.thread, a, ch.oracle);
      if BootEnd(a, r) { assert Exec(s.shared, ch.thread, a, ch.oracle) == BootStep(s.shared, a, ch.oracle); }
    }
  }

  lemma {:induction false} BootedForGood(ss: seq<State>, cs: seq<Choice>, i: nat, j: nat, r: nat)
    requires Trace(ss, cs) && i <= j < |ss| && r < |ss[i].shared.pods| && ss[i].shared.pods[r].booted
    ensures r < |ss[j].shared.pods| && ss[j].shared.pods[r].booted
    decreases j
  {
    if i < j {
      BootedForGood(ss, cs, i, j - 1, r);
      OnlyTheBootReplaces(ss, cs, j - 1, r);
    }
  }

  /** Of all the CreateContainer calls on one image pod in a run, at most one boots it. */
  lemma BootAtMostOnce(ss: seq<State>, cs: seq<Choice>, i: nat, j: nat, r: nat)
    requires Trace(ss, cs) && i < |cs| && j < |cs|
    requires Boots(ss[i], cs[i], r) && Boots(ss[j], cs[j], r)
    ensures i == j
  {
    BootNotAfter(ss, cs, i, j, r);
    BootNotAfter(ss, cs, j, i, r);
  }

  lemma BootNotAfter(ss: seq<State>, cs: seq<Choice>, i: nat, j: nat, r: nat)
    requires Trace(ss, cs) && i < |cs| && j < |cs|
    requires Boots(ss[i], cs[i], r) && Boots(ss[j], cs[j], r)
    ensures j <= i
  {
    BootRefs(ss, cs, i, r);
    BootRefs(ss, cs, j, r);
    OnlyTheBootReplaces(ss, cs, i, r);
    if i < j {
      BootedForGood(ss, cs, i + 1, j, r);
      OnlyTheBootReplaces(ss, cs, j, r);
      assert false;
    }
  }

  lemma BootRefs(ss: seq<State>, cs: seq<Choice>, i: nat, r: nat)
    requires Trace(ss, cs) && i < |cs| && Boots(ss[i], cs[i], r)
    ensures r < |ss[i].shared.pods|
  {
    assert Follows(ss, cs, i);
  }

  lemma OneAttached(ss: seq<State>, cs: seq<Choice>, k: nat, d: nat, v: string)
    requires Trace(ss, cs) && k < |cs| && d < |ss[k].shared.datas|
    ensures d < |ss[k + 1].shared.datas|
    ensures v in ss[k].shared.datas[d].alloc.attached || Attaches(ss[k], cs[k], d, v) ==>
              v in ss[k + 1].shared.datas[d].alloc.attached
  {
    assert Follows(ss, cs, k);
    StepKeepsAttached(ss[k], cs[k], d, v);
  }

  lemma {:induction false} AttachedForGood(ss: seq<State>, cs: seq<Choice>, i: nat, j: nat, d: nat, v: string)
    requires Trace(ss, cs) && i <= j < |ss|
    requires d < |ss[i].shared.datas| && v in ss[i].shared.datas[d].alloc.attached
    ensures d < |ss[j].shared.datas| && v in ss[j].shared.datas[d].alloc.attached
    decreases j
  {
    if i < j {
      AttachedForGood(ss, cs, i, j - 1, d, v);
      OneAttached(ss, cs, j - 1, d, v);
    }
  }

  lemma StepKeepsAttached(s: State, ch: Choice, d: nat, v: string)
    requires Enabled(s, ch) && d < |s.shared.datas|
    ensures var s' := Next(s, ch);
            && d < |s'.shared.datas|
            && (v in s.shared.datas[d].alloc.attached ==> v in s'.shared.datas[d].alloc.attached)
            && (Attaches(s, ch, d, v) ==> v in s'.shared.datas[d].alloc.attached)
  {
    if ch.Run? && s.threads[ch.thread].code.Do? {
      var a := s.threads[ch.thread].code.action;
      ExecChanges(s.shared, ch.thread, a, ch.oracle);
    }
  }

  /** The cloud accepts a volume at most once for one booted VM, across its boot loop and all createContainer
      loops, also when two of them saw NeedMount true. */
  lemma AttachAtMostOnce(ss: seq<State>, cs: seq<Choice>, i: nat, j: nat, d: nat, v: string)
    requires Trace(ss, cs) && i < |cs| && j < |cs|
    requires Attaches(ss[i], cs[i], d, v) && Attaches(ss[j], cs[j], d, v)
    ensures i == j
  {
    AttachNotAfter(ss, cs, i, j, d, v);
    AttachNotAfter(ss, cs, j, i, d, v);
  }

  /** The cloud is asked for a volume only while it is not recorded as attached. */
  lemma AttachesUnattached(ss: seq<State>, cs: seq<Choice>, k: nat, d: nat, v: string)
    requires Trace(ss, cs) && k < |cs| && Attaches(ss[k], cs[k], d, v)
    ensures d < |ss[k].shared.datas| && v !in ss[k].shared.datas[d].alloc.attached
  {
    assert Follows(ss, cs, k);
    Invariants(ss, cs, k);
    var t: nat, a :| Accesses(ss[k], cs[k], t, a) && a.CloudAttach? && a.data == d && a.vol == v;
    assert ThreadFact(ss[k].shared, ss[k].threads[t]);
  }

  lemma AttachNotAfter(ss: seq<State>, cs: seq<Choice>, i: nat, j: nat, d: nat, v: string)
    requires Trace(ss, cs) && i < |cs| && j < |cs|
    requires Attaches(ss[i], cs[i], d, v) && Attaches(ss[j], cs[j], d, v)
    ensures j <= i
  {
    AttachesUnattached(ss, cs, i, d, v);
    OneAttached(ss, cs, i, d, v);
    AttachesUnattached(ss, cs, j, d, v);
    if i < j { AttachedForGood(ss, cs, i + 1, j, d, v); }
  }

  /** In every state of every run, the volumes attached to one VM are on devices with distinct last letters. */
  lemma DevicesDistinct(ss: seq<State>, cs: seq<Choice>, i: nat, d: nat, v: string, w: string)
    requires Trace(ss, cs) && i < |ss| && d < |ss[i].shared.datas| && v != w
    requires v in ss[i].shared.datas[d].alloc.attached && w in ss[i].shared.datas[d].alloc.attached
    ensures var attached := ss[i].shared.datas[d].alloc.attached;
            attached[v] != "" && attached[w] != "" && Letter(attached[v]) != Letter(attached[w])
  {
    Invariants(ss, cs, i);
    assert Consistent(ss[i].shared.datas[d].alloc);
  }

  // ---------- Addresses ----------

  /** Pod r has address x: it is listed under it and is not removed, or its removal has yet to give x back. */
  ghost predicate HasAddress(s: State, r: nat, x: string) {
    && r < |s.shared.pods| && s.shared.pods[r].addr == x && s.shared.pods[r].listed
    && (s.shared.pods[r].client.Some? || exists t :: Releases(s, t, r))
  }

  /** A boot for a new pod with address x failed in this step. */
  ghost predicate Drops(s: State, ch: Choice, x: string) {
    ch.Run? && !ch.oracle.ok && exists t, volumes :: Accesses(s, ch, t, Provision(NewPod(x, volumes)))
  }

  /** The four places an address can be in are exclusive and each is unique. */
  lemma PlacesOfAddress(s: State, x: string)
    requires Books(s) && x in s.shared.ledger
    ensures s.shared.ledger[x].Free? <==> x in s.shared.pool
    ensures s.shared.ledger[x].Held? <==> exists r :: HasAddress(s, r, x)
    ensures s.shared.ledger[x].Carried? <==> exists t :: Carries(s, t, x)
    ensures forall r, q | HasAddress(s, r, x) && HasAddress(s, q, x) :: r == q
    ensures forall t, u | Carries(s, t, x) && Carries(s, u, x) :: t == u
  {
    var sh := s.shared;
    assert x in sh.pool <==> At(sh, x, Free);
    forall r: nat | HasAddress(s, r, x) ensures sh.ledger[x] == Held(r) {
      if sh.pods[r].client.Some? {
        assert At(sh, sh.pods[r].addr, Held(r));
      } else {
        var t: nat :| Releases(s, t, r);
        assert ThreadClaim(sh, t, s.threads[t]);
      }
    }
    forall t: nat | Carries(s, t, x) ensures sh.ledger[x] == Carried(t) {
      assert ThreadClaim(sh, t, s.threads[t]);
    }
    if sh.ledger[x].Held? { assert HasAddress(s, sh.ledger[x].pod, x); }
    if sh.ledger[x].Carried? { assert Carries(s, sh.ledger[x].thread, x); }
  }

  /** A boot for a new pod with address x failed in the first i steps. */
  ghost predicate Dropped(ss: seq<State>, cs: seq<Choice>, i: nat, x: string)
    requires |ss| == |cs| + 1 && i < |ss|
  {
    exists j :: 0 <= j < i && Drops(ss[j], cs[j], x)
  }

  /** After i steps address x is in exactly one place: in the pool, with exactly one pod, with exactly one
      handler, or dropped by an earlier failed boot. */
  ghost predicate OnePlace(ss: seq<State>, cs: seq<Choice>, i: nat, x: string)
    requires |ss| == |cs| + 1 && i < |ss|
  {
    var s := ss[i];
    var free, has, carried := x in s.shared.pool, (exists r :: HasAddress(s, r, x)), (exists t :: Carries(s, t, x));
    var dropped := Dropped(ss, cs, i, x);
    && (free || has || carried || dropped)
    && (free ==> !has && !carried && !dropped) && (has ==> !carried && !dropped) && (carried ==> !dropped)
    && (forall r, q | HasAddress(s, r, x) && HasAddress(s, q, x) :: r == q)
    && (forall t, u | Carries(s, t, x) && Carries(s, u, x) :: t == u)
  }

  /** After i steps every address of the initial pool and the imported pods is in exactly one place, the pool holds
      it at most once, and holds no other address. */
  ghost predicate Conserved(ss: seq<State>, cs: seq<Choice>, i: nat)
    requires |ss| == |cs| + 1 && i < |ss|
  {
    && NoDup(ss[i].shared.pool)
    && (forall x | x in ss[i].shared.pool :: x in ss[0].shared.ledger)
    && (forall x | x in ss[0].shared.ledger :: OnePlace(ss, cs, i, x))
  }

  /** Address conservation at lock granularity: the addresses are conserved at every moment of a run exactly when
      no image pod is booted after its removal. */
  lemma AddressesConserved(ss: seq<State>, cs: seq<Choice>, i: nat)
    requires Trace(ss, cs) && i < |ss| && ss[i].shared.panicked.None?
    ensures (forall k | 0 <= k <= i :: Conserved(ss, cs, k)) <==> NoLateBoot(ss, cs, i)
  {
    if NoLateBoot(ss, cs, i) {
      forall k | 0 <= k <= i ensures Conserved(ss, cs, k) {
        assert k < i ==> Follows(ss, cs, k);
        ConservedUntil(ss, cs, k);
      }
    } else {
      var j := FirstLateBoot(ss, cs, i);
      LateBootUnconserved(ss, cs, j);
    }
  }

  lemma ConservedUntil(ss: seq<State>, cs: seq<Choice>, i: nat)
    requires Trace(ss, cs) && i < |ss| && NoLateBoot(ss, cs, i) && ss[i].shared.panicked.None?
    ensures Conserved(ss, cs, i)
  {
    BooksInvariant(ss, cs, i);
    LedgerOverRun(ss, cs, i);
    forall x | x in ss[i].shared.pool ensures x in ss[0].shared.ledger { assert At(ss[i].shared, x, Free); }
    forall x | x in ss[0].shared.ledger ensures OnePlace(ss, cs, i, x) { PlacesOfAddress(ss[i], x); }
  }

  lemma {:induction false} FirstLateBoot(ss: seq<State>, cs: seq<Choice>, i: nat) returns (j: nat)
    requires Trace(ss, cs) && i <= |cs| && !NoLateBoot(ss, cs, i)
    ensures j < i && BootsRemoved(ss[j], cs[j]) && NoLateBoot(ss, cs, j)
    decreases i
  {
    if NoLateBoot(ss, cs, i - 1) { j := i - 1; } else { j := FirstLateBoot(ss, cs, i - 1); }
  }

  /** After the boot of a removed pod its address is in two places. */
  lemma LateBootUnconserved(ss: seq<State>, cs: seq<Choice>, j: nat)
    requires Trace(ss, cs) && j < |cs| && NoLateBoot(ss, cs, j) && BootsRemoved(ss[j], cs[j])
    ensures !Conserved(ss, cs, j + 1)
  {
    var r, x := OneLateBoot(ss, cs, j);
    LedgerOverRun(ss, cs, j);
    DroppedStep(ss, cs, j, x);
    TwoPlaces(ss, cs, j + 1, x, r);
  }

  lemma OneLateBoot(ss: seq<State>, cs: seq<Choice>, j: nat) returns (r: nat, x: string)
    requires Trace(ss, cs) && j < |cs| && NoLateBoot(ss, cs, j) && BootsRemoved(ss[j], cs[j])
    ensures x in ss[j].shared.ledger && HasAddress(ss[j + 1], r, x)
    ensures var s' := ss[j + 1];
            || x in s'.shared.pool || ss[j].shared.ledger[x] == Lost
            || (exists q :: q != r && HasAddress(s', q, x)) || exists t :: Carries(s', t, x)
  {
    assert Follows(ss, cs, j);
    BooksInvariant(ss, cs, j);
    Invariants(ss, cs, j);
    r, x := LateBootDoubles(ss[j], cs[j]);
  }

  lemma LateBootDoubles(s: State, ch: Choice) returns (r: nat, x: string)
    requires Enabled(s, ch) && LockInv(s) && Once(s) && Books(s) && BootsRemoved(s, ch)
    ensures x in s.shared.ledger && HasAddress(Next(s, ch), r, x)
    ensures || x in Next(s, ch).shared.pool || s.shared.ledger[x] == Lost
            || (exists q :: q != r && HasAddress(Next(s, ch), q, x)) || exists t :: Carries(Next(s, ch), t, x)
  {
    LateBootFindsAddressGone(s, ch);
    r := s.threads[ch.thread].code.action.job.pod;
    x := s.shared.pods[r].addr;
    LateBootKeepsPlaces(s, ch, x);
    PlacesOfAddress(s, x);
  }

  /** A pod has the address, and so does something else. */
  lemma TwoPlaces(ss: seq<State>, cs: seq<Choice>, i: nat, x: string, r: nat)
    requires |ss| == |cs| + 1 && i < |ss| && x in ss[0].shared.ledger && HasAddress(ss[i], r, x)
    requires || x in ss[i].shared.pool || Dropped(ss, cs, i, x)
             || (exists q :: q != r && HasAddress(ss[i], q, x)) || exists t :: Carries(ss[i], t, x)
    ensures !Conserved(ss, cs, i)
  {
    assert !OnePlace(ss, cs, i, x);
  }

  lemma LateBootKeepsPlaces(s: State, ch: Choice, x: string)
    requires Enabled(s, ch) && BootsRemoved(s, ch)
    ensures var s', r := Next(s, ch), s.threads[ch.thread].code.action.job.pod;
            && s'.shared.pool == s.shared.pool
            && (forall q | HasAddress(s, q, x) :: HasAddress(s', q, x))
            && (forall u | Carries(s, u, x) :: Carries(s', u, x))
            && (s.shared.pods[r].listed && s.shared.pods[r].addr == x ==> HasAddress(s', r, x))
  {
    var t, a, s' := ch.thread, s.threads[ch.thread].code.action, Next(s, ch);
    assert Exec(s.shared, t, a, ch.oracle) == BootStep(s.shared, a, ch.oracle);
    assert Tail(s.threads[t].code) == Some(a) && Carry(s.shared, a) == None;
    forall q | HasAddress(s, q, x) ensures HasAddress(s', q, x) {
      if u: nat :| Releases(s, u, q) { assert Releases(s', u, q); }
    }
  }

  /** A provider of traditional pods never boots a pod late, so AddressesConserved holds of all its runs. */
  lemma {:induction false} TraditionalPodsBootInTime(ss: seq<State>, cs: seq<Choice>, i: nat)
    requires Trace(ss, cs) && i <= |cs| && !ss[0].shared.imagePod
    ensures !ss[i].shared.imagePod && NoLateBoot(ss, cs, i)
    decreases i
  {
    if i > 0 {
      TraditionalPodsBootInTime(ss, cs, i - 1);
      var s, ch := ss[i - 1], cs[i - 1];
      assert Follows(ss, cs, i - 1);
      Invariants(ss, cs, i - 1);
      if ch.Run? && s.threads[ch.thread].code.Do? {
        assert ThreadFact(s.shared, s.threads[ch.thread]);
        ExecChanges(s.shared, ch.thread, s.threads[ch.thread].code.action, ch.oracle);
      }
    }
  }

  lemma OneLedger(ss: seq<State>, cs: seq<Choice>, k: nat)
    requires Trace(ss, cs) && k < |cs| && NoLateBoot(ss, cs, k + 1)
    ensures ss[k + 1].shared.ledger.Keys == ss[k].shared.ledger.Keys
    ensures forall x | x in ss[k].shared.ledger ::
              ss[k + 1].shared.ledger[x] == Lost <==> ss[k].shared.ledger[x] == Lost || Drops(ss[k], cs[k], x)
  {
    assert Follows(ss, cs, k);
    BooksInvariant(ss, cs, k);
    StepDrops(ss[k], cs[k]);
  }

  lemma DroppedStep(ss: seq<State>, cs: seq<Choice>, k: nat, x: string)
    requires |ss| == |cs| + 1 && k < |cs|
    ensures Dropped(ss, cs, k + 1, x) <==> Dropped(ss, cs, k, x) || Drops(ss[k], cs[k], x)
  {
  }

  lemma {:induction false} LedgerOverRun(ss: seq<State>, cs: seq<Choice>, i: nat)
    requires Trace(ss, cs) && i < |ss| && NoLateBoot(ss, cs, i)
    ensures ss[i].shared.ledger.Keys == ss[0].shared.ledger.Keys
    ensures forall x | x in ss[i].shared.ledger :: ss[i].shared.ledger[x] == Lost <==> Dropped(ss, cs, i, x)
    decreases i
  {
    if i > 0 {
      LedgerOverRun(ss, cs, i - 1);
      OneLedger(ss, cs, i - 1);
      forall x | x in ss[i].shared.ledger ensures ss[i].shared.ledger[x] == Lost <==> Dropped(ss, cs, i, x) {
        DroppedStep(ss, cs, i - 1, x);
      }
    }
  }

  lemma StepDrops(s: State, ch: Choice)
    requires Enabled(s, ch) && Books(s) && !BootsRemoved(s, ch)
    ensures Next(s, ch).shared.ledger.Keys == s.shared.ledger.Keys
    ensures forall x | x in s.shared.ledger ::
              Next(s, ch).shared.ledger[x] == Lost <==> s.shared.ledger[x] == Lost || Drops(s, ch, x)
  {
    if ch.Run? && s.threads[ch.thread].code.Do? {
      var t, a := ch.thread, s.threads[ch.thread].code.action;
      assert ThreadClaim(s.shared, t, s.threads[t]);
      ExecLedgerMoves(s.shared, t, a, ch.oracle);
      if a.Provision? && a.job.NewPod? {
        assert Exec(s.shared, t, a, ch.oracle) == BootStep(s.shared, a, ch.oracle);
        assert Accesses(s, ch, t, Provision(NewPod(a.job.addr, a.job.volumes)));
      } else if IsRun(a) {
        assert Exec(s.shared, t, a, ch.oracle) == RunStep(s.shared, t, a);
      } else if MovesBooks(a) {
        assert Exec(s.shared, t, a, ch.oracle) == RemoveStep(s.shared, a, ch.oracle);
      } else {
        OthersSameBooks(s.shared, t, a, ch.oracle);
      }
    }
  }

  // ---------- The nil client ----------

  /** The step in which stopSandbox marks pod r as stopped. */
  ghost predicate Stops(s: State, ch: Choice, r: nat) {
    exists t, c :: Accesses(s, ch, t, StopLoop(r, c, 0))
  }

  /** The step in which removePodSandbox drops the client of pod r. */
  ghost predicate Removes(s: State, ch: Choice, r: nat) {
    && (exists t :: Accesses(s, ch, t, RemoveBody(r)))
    && r < |s.shared.pods| && s.shared.pods[r].client.Some?
    && (s.shared.pods[r].booted ==> ch.Run? && ch.oracle.ok)
  }

  /** Pod r was stopped in the first i steps. */
  ghost predicate Stopped(ss: seq<State>, cs: seq<Choice>, i: nat, r: nat)
    requires |ss| == |cs| + 1 && i < |ss|
  {
    exists j :: 0 <= j < i && Stops(ss[j], cs[j], r)
  }

  /** Every removal in the first i steps follows a stop of the same pod. */
  ghost predicate StopsBeforeRemoving(ss: seq<State>, cs: seq<Choice>, i: nat)
    requires |ss| == |cs| + 1 && i < |ss|
  {
    forall j, r | 0 <= j < i && Removes(ss[j], cs[j], r) :: Stopped(ss, cs, j, r)
  }

  ghost predicate RemovedNotReady(s: State) {
    forall r | 0 <= r < |s.shared.pods| && s.shared.pods[r].client.None? :: !s.shared.pods[r].ready
  }

  /** What an access does to ready and to a lost client. */
  ghost predicate ReadyAndClient(sh: Shared, a: Action, o: Oracle, sh': Shared, r: nat) {
    && (r < |sh.pods| ==>
          && r < |sh'.pods|
          && (sh'.pods[r].ready <==> sh.pods[r].ready && !(a.StopLoop? && a.pod == r && a.left == 0))
          && (sh'.pods[r].client.None? ==> sh.pods[r].client.None?
                                           || (a == RemoveBody(r) && (sh.pods[r].booted ==> o.ok))))
    && (|sh.pods| <= r < |sh'.pods| ==> sh'.pods[r].client.Some? && sh'.pods[r].ready)
  }

  lemma RunReady(sh: Shared, t: nat, a: Action, o: Oracle, r: nat)
    requires IsRun(a) && Refs(sh, a)
    ensures ReadyAndClient(sh, a, o, RunStep(sh, t, a).0, r)
  {
  }

  lemma BootReady(sh: Shared, a: Action, o: Oracle, r: nat)
    requires IsBoot(a) && WellFormed(sh) && Refs(sh, a)
    ensures ReadyAndClient(sh, a, o, BootStep(sh, a, o).0, r)
  {
  }

  lemma AttachReady(sh: Shared, a: Action, o: Oracle, r: nat)
    requires IsAttach(a) && Refs(sh, a)
    ensures ReadyAndClient(sh, a, o, AttachStep(sh, a, o).0, r)
  {
  }

  lemma StopReady(sh: Shared, a: Action, o: Oracle, r: nat)
    requires IsStop(a) && WellFormed(sh) && Refs(sh, a)
    ensures ReadyAndClient(sh, a, o, StopStep(sh, a, o).0, r)
  {
  }

  lemma RemoveReady(sh: Shared, a: Action, o: Oracle, r: nat)
    requires IsRemove(a) && Refs(sh, a)
    ensures ReadyAndClient(sh, a, o, RemoveStep(sh, a, o).0, r)
  {
  }

  lemma ExecReady(sh: Shared, t: nat, a: Action, o: Oracle, r: nat)
    requires WellFormed(sh) && Refs(sh, a)
    ensures ReadyAndClient(sh, a, o, Exec(sh, t, a, o).0, r)
  {
    if IsRun(a) { RunReady(sh, t, a, o, r); }
    else if IsBoot(a) { BootReady(sh, a, o, r); }
    else if IsAttach(a) { AttachReady(sh, a, o, r); }
    else if IsStop(a) { StopReady(sh, a, o, r); }
    else if IsRemove(a) { RemoveReady(sh, a, o, r); }
    else { ReadOnly(sh, a, o); }
  }

  /** What a step does to them. */
  lemma StepReady(s: State, ch: Choice, r: nat)
    requires Enabled(s, ch)
    ensures Stops(s, ch, r) ==> r < |s.shared.pods|
    ensures r < |s.shared.pods| ==>
              var s' := Next(s, ch);
              && r < |s'.shared.pods|
              && (s'.shared.pods[r].ready <==> s.shared.pods[r].ready && !Stops(s, ch, r))
              && (s'.shared.pods[r].client.None? ==> s.shared.pods[r].client.None? || Removes(s, ch, r))
    ensures |s.shared.pods| <= r < |Next(s, ch).shared.pods| ==>
              Next(s, ch).shared.pods[r].client.Some? && Next(s, ch).shared.pods[r].ready
  {
    if ch.Run? && s.threads[ch.thread].code.Do? {
      var t, a := ch.thread, s.threads[ch.thread].code.action;
      assert Accesses(s, ch, t, a);
      ExecReady(s.shared, t, a, ch.oracle, r);
    }
  }

  lemma OneReady(ss: seq<State>, cs: seq<Choice>, k: nat, r: nat)
    requires Trace(ss, cs) && k < |cs|
    ensures r < |ss[k].shared.pods| || Stops(ss[k], cs[k], r) ==>
              r < |ss[k].shared.pods| && r < |ss[k + 1].shared.pods|
    ensures r < |ss[k + 1].shared.pods| ==>
              (ss[k + 1].shared.pods[r].ready <==>
               (r < |ss[k].shared.pods| ==> ss[k].shared.pods[r].ready) && !Stops(ss[k], cs[k], r))
  {
    assert Follows(ss, cs, k);
    StepReady(ss[k], cs[k], r);
  }

  lemma StoppedStep(ss: seq<State>, cs: seq<Choice>, k: nat, r: nat)
    requires |ss| == |cs| + 1 && k < |cs|
    ensures Stopped(ss, cs, k + 1, r) <==> Stopped(ss, cs, k, r) || Stops(ss[k], cs[k], r)
  {
  }

  /** A pod is ready exactly until it is stopped. */
  lemma {:induction false} ReadyUntilStopped(ss: seq<State>, cs: seq<Choice>, i: nat, r: nat)
    requires Trace(ss, cs) && i < |ss|
    ensures Stopped(ss, cs, i, r) ==> r < |ss[i].shared.pods|
    ensures r < |ss[i].shared.pods| ==> (ss[i].shared.pods[r].ready <==> !Stopped(ss, cs, i, r))
    decreases i
  {
    if i > 0 {
      ReadyUntilStopped(ss, cs, i - 1, r);
      OneReady(ss, cs, i - 1, r);
      StoppedStep(ss, cs, i - 1, r);
    }
  }

  /** A stopped pod is not ready in any later state, and every status call reports it so. */
  lemma StoppedForGood(ss: seq<State>, cs: seq<Choice>, i: nat, j: nat, r: nat)
    requires Trace(ss, cs) && i < j < |ss| && Stops(ss[i], cs[i], r)
    ensures r < |ss[j].shared.pods|
    ensures var p := ss[j].shared.pods[r]; !p.ready && forall answers :: !S.PodState(p.ready, p.booted, answers)
  {
    assert Stopped(ss, cs, j, r);
    ReadyUntilStopped(ss, cs, j, r);
  }

  /** In every interleaving: no pod without a client is ever ready exactly when every removal follows a stop of the
      same pod, and then no status call on a PodData looked up earlier uses the nil client. */
  lemma RemovedIsNotReady(ss: seq<State>, cs: seq<Choice>, i: nat)
    requires Trace(ss, cs) && i < |ss|
    ensures (forall k | 0 <= k <= i :: RemovedNotReady(ss[k])) <==> StopsBeforeRemoving(ss, cs, i)
    ensures StopsBeforeRemoving(ss, cs, i) ==> ss[i].shared.panicked != Some(NilClientInStatus)
  {
    if StopsBeforeRemoving(ss, cs, i) {
      forall k | 0 <= k <= i ensures RemovedNotReady(ss[k]) { RemovedWasStopped(ss, cs, k); }
      if i > 0 { OneStatusPanic(ss, cs, i - 1); }
    }
    if forall k | 0 <= k <= i :: RemovedNotReady(ss[k]) {
      forall j, r | 0 <= j < i && Removes(ss[j], cs[j], r) ensures Stopped(ss, cs, j, r) {
        assert RemovedNotReady(ss[j + 1]);
        OneRemoval(ss, cs, j, r);
        ReadyUntilStopped(ss, cs, j + 1, r);
        StoppedStep(ss, cs, j, r);
      }
    }
  }

  lemma RemovedWasStopped(ss: seq<State>, cs: seq<Choice>, i: nat)
    requires Trace(ss, cs) && i < |ss| && StopsBeforeRemoving(ss, cs, i)
    ensures RemovedNotReady(ss[i])
  {
    forall r | 0 <= r < |ss[i].shared.pods| && ss[i].shared.pods[r].client.None? ensures !ss[i].shared.pods[r].ready {
      ClientLost(ss, cs, i, r);
      var j :| 0 <= j < i && Removes(ss[j], cs[j], r);
      var k :| 0 <= k < j && Stops(ss[k], cs[k], r);
      StoppedForGood(ss, cs, k, i, r);
    }
  }

  /** The step of a removal leaves the pod without a client, and is no stop. */
  lemma OneRemoval(ss: seq<State>, cs: seq<Choice>, k: nat, r: nat)
    requires Trace(ss, cs) && k < |cs| && Removes(ss[k], cs[k], r)
    ensures r < |ss[k + 1].shared.pods| && ss[k + 1].shared.pods[r].client.None? && !Stops(ss[k], cs[k], r)
  {
    assert Follows(ss, cs, k);
    var t, a := cs[k].thread, RemoveBody(r);
    assert Exec(ss[k].shared, t, a, cs[k].oracle) == RemoveStep(ss[k].shared, a, cs[k].oracle);
  }

  lemma OneStatusPanic(ss: seq<State>, cs: seq<Choice>, k: nat)
    requires Trace(ss, cs) && k < |cs| && RemovedNotReady(ss[k])
    ensures ss[k + 1].shared.panicked != Some(NilClientInStatus)
  {
    assert Follows(ss, cs, k);
    StatusPanics(ss[k], cs[k]);
  }

  /** The status call dies exactly on a ready, booted pod without a client. */
  lemma StatusPanics(s: State, ch: Choice)
    requires Enabled(s, ch)
    ensures Next(s, ch).shared.panicked == Some(NilClientInStatus) <==>
            exists t: nat, r: nat :: Accesses(s, ch, t, StatusBody(r)) && r < |s.shared.pods|
                           && s.shared.pods[r].ready && s.shared.pods[r].booted && s.shared.pods[r].client.None?
  {
    if ch.Run? && s.threads[ch.thread].code.Do? {
      var t, a, sh := ch.thread, s.threads[ch.thread].code.action, s.shared;
      assert Accesses(s, ch, t, a);
      if IsRun(a) { assert Exec(sh, t, a, ch.oracle) == RunStep(sh, t, a); }
      else if IsStop(a) { assert Exec(sh, t, a, ch.oracle) == StopStep(sh, a, ch.oracle); }
      else if IsRemove(a) { assert Exec(sh, t, a, ch.oracle) == RemoveStep(sh, a, ch.oracle); }
      else if IsBoot(a) { assert Exec(sh, t, a, ch.oracle) == BootStep(sh, a, ch.oracle); }
      else if IsAttach(a) { assert Exec(sh, t, a, ch.oracle) == AttachStep(sh, a, ch.oracle); }
      else { assert Exec(sh, t, a, ch.oracle) == ReadStep(sh, a, ch.oracle); }
    }
  }

  /** A pod loses its client only by a removal. */
  lemma {:induction false} ClientLost(ss: seq<State>, cs: seq<Choice>, i: nat, r: nat)
    requires Trace(ss, cs) && i < |ss| && r < |ss[i].shared.pods| && ss[i].shared.pods[r].client.None?
    ensures exists j :: 0 <= j < i && Removes(ss[j], cs[j], r)
    decreases i
  {
    assert i > 0;
    OneClientLost(ss, cs, i - 1, r);
    if !Removes(ss[i - 1], cs[i - 1], r) { ClientLost(ss, cs, i - 1, r); }
  }

  lemma OneClientLost(ss: seq<State>, cs: seq<Choice>, k: nat, r: nat)
    requires Trace(ss, cs) && k < |cs| && r < |ss[k + 1].shared.pods| && ss[k + 1].shared.pods[r].client.None?
    ensures || Removes(ss[k], cs[k], r)
            || (r < |ss[k].shared.pods| && ss[k].shared.pods[r].client.None?)
  {
    assert Follows(ss, cs, k);
    StepReady(ss[k], cs[k], r);
  }

  /** A removal dies exactly on a pod without a client whose VM, if it is booted, the cloud destroys. */
  lemma StepRemovePanics(s: State, ch: Choice)
    requires Enabled(s, ch)
    ensures Next(s, ch).shared.panicked == Some(NilClientInRemove) <==>
            exists t: nat, r: nat :: Accesses(s, ch, t, RemoveBody(r)) && r < |s.shared.pods|
                           && s.shared.pods[r].client.None? && (s.shared.pods[r].booted ==> ch.Run? && ch.oracle.ok)
  {
    if ch.Run? && s.threads[ch.thread].code.Do? {
      var t, a, sh := ch.thread, s.threads[ch.thread].code.action, s.shared;
      assert Accesses(s, ch, t, a);
      if IsRun(a) { assert Exec(sh, t, a, ch.oracle) == RunStep(sh, t, a); }
      else if IsStop(a) { assert Exec(sh, t, a, ch.oracle) == StopStep(sh, a, ch.oracle); }
      else if IsRemove(a) { assert Exec(sh, t, a, ch.oracle) == RemoveStep(sh, a, ch.oracle); }
      else if IsBoot(a) { assert Exec(sh, t, a, ch.oracle) == BootStep(sh, a, ch.oracle); }
      else if IsAttach(a) { assert Exec(sh, t, a, ch.oracle) == AttachStep(sh, a, ch.oracle); }
      else { ReadOnly(sh, a, ch.oracle); }
    }
  }

  /** It dies only on a pod that an earlier removal took the client of. */
  lemma OnlySecondRemovalsPanic(ss: seq<State>, cs: seq<Choice>, i: nat)
    requires Trace(ss, cs) && i < |cs| && ss[i + 1].shared.panicked == Some(NilClientInRemove)
    ensures exists t: nat, r: nat, j ::
              0 <= j < i && Accesses(ss[i], cs[i], t, RemoveBody(r)) && Removes(ss[j], cs[j], r)
  {
    var t, r := OneRemovePanic(ss, cs, i);
    ClientLost(ss, cs, i, r);
    var j :| 0 <= j < i && Removes(ss[j], cs[j], r);
  }

  lemma OneRemovePanic(ss: seq<State>, cs: seq<Choice>, i: nat) returns (t: nat, r: nat)
    requires Trace(ss, cs) && i < |cs| && ss[i + 1].shared.panicked == Some(NilClientInRemove)
    ensures Accesses(ss[i], cs[i], t, RemoveBody(r)) && r < |ss[i].shared.pods| && ss[i].shared.pods[r].client.None?
  {
    assert Follows(ss, cs, i);
    StepRemovePanics(ss[i], cs[i]);
    t, r :| Accesses(ss[i], cs[i], t, RemoveBody(r)) && r < |ss[i].shared.pods| && ss[i].shared.pods[r].client.None?;
  }

  /** An Attach dies on maps that were never made only in the mount loop of createContainer, never in a boot loop. */
  lemma OnlyMountLoopsPanic(ss: seq<State>, cs: seq<Choice>, i: nat)
    requires Trace(ss, cs) && i < |cs| && ss[i + 1].shared.panicked == Some(NilMaps)
    ensures exists t: nat, a :: Accesses(ss[i], cs[i], t, a) && a.DecideAttach? && a.loop.MountLoop?
                                && a.data < |ss[i].shared.datas| && !ss[i].shared.datas[a.data].maps
  {
    assert Follows(ss, cs, i);
    Invariants(ss, cs, i);
    StepMapsPanics(ss[i], cs[i]);
    var t: nat, a :| Accesses(ss[i], cs[i], t, a) && a.DecideAttach? && a.data < |ss[i].shared.datas|
                     && !ss[i].shared.datas[a.data].maps;
    assert ThreadFact(ss[i].shared, ss[i].threads[t]);
  }

  lemma StepMapsPanics(s: State, ch: Choice)
    requires Enabled(s, ch)
    ensures Next(s, ch).shared.panicked == Some(NilMaps) <==>
            exists t: nat, a :: Accesses(s, ch, t, a) && a.DecideAttach? && a.data < |s.shared.datas|
                                && !s.shared.datas[a.data].maps
  {
    if ch.Run? && s.threads[ch.thread].code.Do? {
      var t, a, sh := ch.thread, s.threads[ch.thread].code.action, s.shared;
      assert Accesses(s, ch, t, a);
      if IsRun(a) { assert Exec(sh, t, a, ch.oracle) == RunStep(sh, t, a); }
      else if IsStop(a) { assert Exec(sh, t, a, ch.oracle) == StopStep(sh, a, ch.oracle); }
      else if IsRemove(a) { assert Exec(sh, t, a, ch.oracle) == RemoveStep(sh, a, ch.oracle); }
      else if IsBoot(a) { assert Exec(sh, t, a, ch.oracle) == BootStep(sh, a, ch.oracle); }
      else if IsAttach(a) { assert Exec(sh, t, a, ch.oracle) == AttachStep(sh, a, ch.oracle); }
      else { ReadOnly(sh, a, ch.oracle); }
    }
  }
}
