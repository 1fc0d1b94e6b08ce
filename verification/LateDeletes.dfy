/** removePodSandbox gives the address of its pod back before it deletes the pod's entry of vmMap. When the late
    delete erases the entry of another pod, and how many addresses may be taken in the window before it can. */
module LateDeletes {
  import opened Wrappers
  import opened EbsDevices
  import opened Protocol
  import opened LockOrder
  import opened OnceOnly
  import opened AddressBooks
  import opened ProtocolRuns

  // ---------- What an access does to the pool and to vmMap ----------

  ghost predicate PoolAndMap(sh: Shared, a: Action, sh': Shared)
    requires Refs(sh, a)
  {
    && sh'.pool == (if a.Shift? && sh.pool != [] then sh.pool[1..]
                    else if a.Release? then sh.pool + [sh.pods[a.pod].addr] else sh.pool)
    && sh'.shifts == sh.shifts + (if a.Shift? && sh.pool != [] then 1 else 0)
    && sh'.vmMap == (if a.Insert? then sh.vmMap[sh.pods[a.pod].addr := a.pod]
                     else if a.Delete? then sh.vmMap - {sh.pods[a.pod].addr} else sh.vmMap)
  }

  /** What a handler carries after an access it carried before, unless it has just taken it out of the pool. */
  ghost predicate FromHandOrPool(sh: Shared, a: Action, sh': Shared, code: Code) {
    forall x :: Tail(code).Some? && Carry(sh', Tail(code).value) == Some(x) ==>
                  Carry(sh, a) == Some(x) || (a.Shift? && sh.pool != [] && sh.pool[0] == x)
  }

  lemma RunEffect(sh: Shared, t: nat, a: Action)
    requires IsRun(a) && Refs(sh, a)
    ensures var (sh', code) := RunStep(sh, t, a);
            PoolAndMap(sh, a, sh') && FromHandOrPool(sh, a, sh', code)
  {
    Front(RunStep(sh, t, a).1);
  }

  lemma BootEffect(sh: Shared, a: Action, o: Oracle)
    requires IsBoot(a) && WellFormed(sh) && Refs(sh, a)
    ensures var (sh', code) := BootStep(sh, a, o);
            PoolAndMap(sh, a, sh') && FromHandOrPool(sh, a, sh', code)
  {
    Front(BootStep(sh, a, o).1);
  }

  lemma AttachEffect(sh: Shared, a: Action, o: Oracle)
    requires IsAttach(a) && Refs(sh, a)
    ensures var (sh', code) := AttachStep(sh, a, o);
            PoolAndMap(sh, a, sh') && FromHandOrPool(sh, a, sh', code)
  {
    Front(AttachStep(sh, a, o).1);
  }

  lemma StopEffect(sh: Shared, a: Action, o: Oracle)
    requires IsStop(a) && WellFormed(sh) && Refs(sh, a)
    ensures var (sh', code) := StopStep(sh, a, o);
            PoolAndMap(sh, a, sh') && FromHandOrPool(sh, a, sh', code)
  {
    Front(StopStep(sh, a, o).1);
  }

  lemma RemoveEffect(sh: Shared, a: Action, o: Oracle)
    requires IsRemove(a) && Refs(sh, a)
    ensures var (sh', code) := RemoveStep(sh, a, o);
            PoolAndMap(sh, a, sh') && FromHandOrPool(sh, a, sh', code)
  {
    Front(RemoveStep(sh, a, o).1);
  }

  lemma ReadEffect(sh: Shared, a: Action, o: Oracle)
    requires !IsRun(a) && !IsBoot(a) && !IsAttach(a) && !IsStop(a) && !IsRemove(a) && WellFormed(sh) && Refs(sh, a)
    ensures var (sh', code) := ReadStep(sh, a, o);
            PoolAndMap(sh, a, sh') && FromHandOrPool(sh, a, sh', code)
  {
    Front(ReadStep(sh, a, o).1);
  }

  lemma ExecEffect(sh: Shared, t: nat, a: Action, o: Oracle)
    requires WellFormed(sh) && Refs(sh, a)
    ensures var (sh', code) := Exec(sh, t, a, o);
            PoolAndMap(sh, a, sh') && FromHandOrPool(sh, a, sh', code)
  {
    if IsRun(a) { RunEffect(sh, t, a); }
    else if IsBoot(a) { BootEffect(sh, a, o); }
    else if IsAttach(a) { AttachEffect(sh, a, o); }
    else if IsStop(a) { StopEffect(sh, a, o); }
    else if IsRemove(a) { RemoveEffect(sh, a, o); }
    else { ReadEffect(sh, a, o); }
  }

  /** The step in which a handler takes an address out of the pool. */
  ghost predicate TakesAddress(s: State, ch: Choice) {
    && ch.Run? && ch.thread < |s.threads| && s.threads[ch.thread].code.Do?
    && s.threads[ch.thread].code.action.Shift? && s.shared.pool != []
  }

  /** How many addresses are taken in the steps i..j. */
  ghost function Shifts(ss: seq<State>, cs: seq<Choice>, i: nat, j: nat): nat
    requires i <= j <= |cs| && |ss| == |cs| + 1
    decreases j
  {
    if i == j then 0 else Shifts(ss, cs, i, j - 1) + if TakesAddress(ss[j - 1], cs[j - 1]) then 1 else 0
  }

  lemma StepShifts(s: State, ch: Choice)
    requires Enabled(s, ch)
    ensures Next(s, ch).shared.shifts == s.shared.shifts + if TakesAddress(s, ch) then 1 else 0
  {
    if ch.Run? && s.threads[ch.thread].code.Do? {
      ExecEffect(s.shared, ch.thread, s.threads[ch.thread].code.action, ch.oracle);
    }
  }

  ghost predicate Counted(ss: seq<State>, cs: seq<Choice>, k: nat)
    requires k < |cs| && |ss| == |cs| + 1
  {
    ss[k + 1].shared.shifts == ss[k].shared.shifts + if TakesAddress(ss[k], cs[k]) then 1 else 0
  }

  /** The counter counts them. */
  lemma ShiftsCounted(ss: seq<State>, cs: seq<Choice>, i: nat, j: nat)
    requires Trace(ss, cs) && i <= j <= |cs|
    ensures Shifts(ss, cs, i, j) == ss[j].shared.shifts - ss[i].shared.shifts
  {
    forall k | i <= k < j ensures Counted(ss, cs, k) {
      assert Follows(ss, cs, k);
      StepShifts(ss[k], cs[k]);
    }
    ShiftsAddUp(ss, cs, i, j);
  }

  lemma {:induction false} ShiftsAddUp(ss: seq<State>, cs: seq<Choice>, i: nat, j: nat)
    requires |ss| == |cs| + 1 && i <= j <= |cs| && forall k | i <= k < j :: Counted(ss, cs, k)
    ensures Shifts(ss, cs, i, j) == ss[j].shared.shifts - ss[i].shared.shifts
    decreases j
  {
    if i < j {
      ShiftsAddUp(ss, cs, i, j - 1);
      assert Counted(ss, cs, j - 1);
    }
  }

  // ---------- The history of an entry ----------

  /** The step in which createSandbox lists pod q under address x. */
  ghost predicate ListsUnder(s: State, ch: Choice, q: nat, x: string) {
    (exists t :: Accesses(s, ch, t, Insert(q))) && q < |s.shared.pods| && s.shared.pods[q].addr == x
  }

  /** A step in which removePodSandbox deletes the entry of address x. */
  ghost predicate Unlists(s: State, ch: Choice, x: string) {
    exists t, a :: Accesses(s, ch, t, a) && a.Delete? && a.pod < |s.shared.pods| && s.shared.pods[a.pod].addr == x
  }

  ghost predicate Touches(s: State, ch: Choice, x: string) { Unlists(s, ch, x) || exists q :: ListsUnder(s, ch, q, x) }

  /** No step of i..j lists a pod under x or deletes the entry of x. */
  ghost predicate Untouched(ss: seq<State>, cs: seq<Choice>, i: nat, j: nat, x: string)
    requires i <= j <= |cs| && |ss| == |cs| + 1
  {
    forall k | i <= k < j :: !Touches(ss[k], cs[k], x)
  }

  lemma StepEntry(s: State, ch: Choice, x: string, q: nat)
    requires Enabled(s, ch)
    ensures var m, m' := s.shared.vmMap, Next(s, ch).shared.vmMap;
            if Touches(s, ch, x) then x in m' && m'[x] == q <==> ListsUnder(s, ch, q, x)
            else x in m' && m'[x] == q <==> x in m && m[x] == q
  {
    if ch.Run? && s.threads[ch.thread].code.Do? {
      var a := s.threads[ch.thread].code.action;
      assert Accesses(s, ch, ch.thread, a);
      ExecEffect(s.shared, ch.thread, a, ch.oracle);
      if a.Insert? { assert ListsUnder(s, ch, a.pod, s.shared.pods[a.pod].addr); }
    }
  }

  /** Pod q is listed under x after step j exactly when the last step that touched the entry of x listed q, or none
      touched it since step i and q was listed then. */
  lemma {:induction false} EntryHistory(ss: seq<State>, cs: seq<Choice>, i: nat, j: nat, x: string, q: nat)
    requires Trace(ss, cs) && i <= j <= |cs|
    ensures x in ss[j].shared.vmMap && ss[j].shared.vmMap[x] == q <==>
            || (x in ss[i].shared.vmMap && ss[i].shared.vmMap[x] == q && Untouched(ss, cs, i, j, x))
            || LastListed(ss, cs, i, j, x, q)
    decreases j
  {
    if i < j {
      EntryHistory(ss, cs, i, j - 1, x, q);
      assert Follows(ss, cs, j - 1);
      StepEntry(ss[j - 1], cs[j - 1], x, q);
      LastTouch(ss, cs, i, j, x, q);
      UntouchedStep(ss, cs, i, j, x);
    }
  }

  /** Some step of i..j listed pod q under x, and none touched the entry since. */
  ghost predicate LastListed(ss: seq<State>, cs: seq<Choice>, i: nat, j: nat, x: string, q: nat)
    requires i <= j <= |cs| && |ss| == |cs| + 1
  {
    exists k :: i <= k < j && ListsUnder(ss[k], cs[k], q, x) && Untouched(ss, cs, k + 1, j, x)
  }

  lemma UntouchedStep(ss: seq<State>, cs: seq<Choice>, i: nat, j: nat, x: string)
    requires |ss| == |cs| + 1 && i < j <= |cs|
    ensures Untouched(ss, cs, i, j, x) <==> Untouched(ss, cs, i, j - 1, x) && !Touches(ss[j - 1], cs[j - 1], x)
  {
  }

  lemma LastTouch(ss: seq<State>, cs: seq<Choice>, i: nat, j: nat, x: string, q: nat)
    requires |ss| == |cs| + 1 && i < j <= |cs|
    ensures var s, ch := ss[j - 1], cs[j - 1];
            LastListed(ss, cs, i, j, x, q) <==>
            ListsUnder(s, ch, q, x) || (!Touches(s, ch, x) && LastListed(ss, cs, i, j - 1, x, q))
  {
    var s, ch := ss[j - 1], cs[j - 1];
    assert Untouched(ss, cs, j - 1 + 1, j, x);
    if LastListed(ss, cs, i, j, x, q) && !ListsUnder(s, ch, q, x) {
      var k :| i <= k < j && ListsUnder(ss[k], cs[k], q, x) && Untouched(ss, cs, k + 1, j, x);
      UntouchedStep(ss, cs, k + 1, j, x);
    }
    if LastListed(ss, cs, i, j - 1, x, q) && !Touches(s, ch, x) {
      var k :| i <= k < j - 1 && ListsUnder(ss[k], cs[k], q, x) && Untouched(ss, cs, k + 1, j - 1, x);
      UntouchedStep(ss, cs, k + 1, j, x);
    }
  }

  // ---------- When the late delete does harm ----------

  lemma OneAddress(ss: seq<State>, cs: seq<Choice>, k: nat, r: nat)
    requires Trace(ss, cs) && k < |cs| && r < |ss[k].shared.pods|
    ensures r < |ss[k + 1].shared.pods| && ss[k + 1].shared.pods[r].addr == ss[k].shared.pods[r].addr
  {
    var s, ch := ss[k], cs[k];
    assert Follows(ss, cs, k);
    if ch.Run? && s.threads[ch.thread].code.Do? {
      ExecChanges(s.shared, ch.thread, s.threads[ch.thread].code.action, ch.oracle);
    }
  }

  lemma {:induction false} AddressForGood(ss: seq<State>, cs: seq<Choice>, i: nat, j: nat, r: nat)
    requires Trace(ss, cs) && i <= j < |ss| && r < |ss[i].shared.pods|
    ensures r < |ss[j].shared.pods| && ss[j].shared.pods[r].addr == ss[i].shared.pods[r].addr
    decreases j
  {
    if i < j {
      AddressForGood(ss, cs, i, j - 1, r);
      OneAddress(ss, cs, j - 1, r);
    }
  }

  /** Another pod than r was listed under x in a step between i and j, and nothing touched that entry since. */
  ghost predicate Relisted(ss: seq<State>, cs: seq<Choice>, i: nat, j: nat, r: nat, x: string)
    requires i < j <= |cs| && |ss| == |cs| + 1
  {
    exists k, q :: i < k < j && q != r && ListsUnder(ss[k], cs[k], q, x) && Untouched(ss, cs, k + 1, j, x)
  }

  /** What the release finds: the address is with its pod alone. */
  lemma AtRelease(ss: seq<State>, cs: seq<Choice>, i: nat, t: nat, r: nat)
    requires Trace(ss, cs) && i < |cs| && NoLateBoot(ss, cs, i) && Accesses(ss[i], cs[i], t, Release(r))
    ensures r < |ss[i].shared.pods|
    ensures var sh, x := ss[i].shared, ss[i].shared.pods[r].addr;
            && x !in sh.pool && (x in sh.vmMap ==> sh.vmMap[x] == r) && (forall u :: !Carries(ss[i], u, x))
  {
    assert Follows(ss, cs, i);
    BooksInvariant(ss, cs, i);
    assert ThreadClaim(ss[i].shared, t, ss[i].threads[t]);
    var x := ss[i].shared.pods[r].addr;
    assert At(ss[i].shared, x, Held(r)) && !At(ss[i].shared, x, Free);
    forall u: nat ensures !Carries(ss[i], u, x) {
      assert u < |ss[i].threads| ==> ThreadClaim(ss[i].shared, u, ss[i].threads[u]);
    }
  }

  /** removePodSandbox gives the address x of pod r back in step i and deletes the entry of x in step j. The delete
      erases the entry of another pod exactly when such a pod was listed in between and its entry not touched since. */
  lemma LateDeleteErases(ss: seq<State>, cs: seq<Choice>, i: nat, j: nat, t: nat, r: nat, size: nat, at: nat)
    requires Trace(ss, cs) && i < j < |cs| && NoLateBoot(ss, cs, i)
    requires Accesses(ss[i], cs[i], t, Release(r)) && Accesses(ss[j], cs[j], t, Delete(r, size, at))
    ensures r < |ss[i].shared.pods|
    ensures var x, m := ss[i].shared.pods[r].addr, ss[j].shared.vmMap;
            && ss[j + 1].shared.vmMap == m - {x}
            && (x in m && m[x] != r <==> Relisted(ss, cs, i, j, r, x))
  {
    AtRelease(ss, cs, i, t, r);
    AddressForGood(ss, cs, i, j, r);
    var x, m := ss[i].shared.pods[r].addr, ss[j].shared.vmMap;
    assert Follows(ss, cs, j);
    ExecEffect(ss[j].shared, t, Delete(r, size, at), cs[j].oracle);
    assert forall q :: !ListsUnder(ss[i], cs[i], q, x);
    if x in m && m[x] != r {
      EntryHistory(ss, cs, i, j, x, m[x]);
      var k :| i <= k < j && ListsUnder(ss[k], cs[k], m[x], x) && Untouched(ss, cs, k + 1, j, x);
      assert k != i;
    }
    if k, q :| i < k < j && q != r && ListsUnder(ss[k], cs[k], q, x) && Untouched(ss, cs, k + 1, j, x) {
      EntryHistory(ss, cs, i, j, x, q);
    }
  }

  // ---------- The bound ----------

  /** Address x waits in the pool behind ahead others, and no handler carries it. */
  ghost predicate Waiting(s: State, x: string, ahead: nat) {
    && ahead < |s.shared.pool| && s.shared.pool[ahead] == x && x !in s.shared.pool[..ahead]
    && forall t :: !Carries(s, t, x)
  }

  /** Only a step that takes x out of the pool puts it into a handler's hands. */
  lemma StepCarriesOn(s: State, ch: Choice, x: string)
    requires Enabled(s, ch) && Once(s) && forall u :: !Carries(s, u, x)
    requires TakesAddress(s, ch) ==> s.shared.pool[0] != x
    ensures forall u :: !Carries(Next(s, ch), u, x)
  {
    var s' := Next(s, ch);
    if ch.Run? && s.threads[ch.thread].code.Do? {
      var t, a := ch.thread, s.threads[ch.thread].code.action;
      assert Tail(s.threads[t].code) == Some(a);
      ExecEffect(s.shared, t, a, ch.oracle);
      ExecChanges(s.shared, t, a, ch.oracle);
      forall u: nat ensures Carries(s', u, x) ==> Carries(s, u, x) {
        if u != t && Carries(s', u, x) {
          assert ThreadFact(s.shared, s.threads[u]);
          RefsKept(s.shared, s'.shared, a, Tail(s.threads[u].code).value);
        }
      }
    } else {
      if ch.Spawn? { StartCarriesNothing(s.shared, ch.request); }
      forall u: nat ensures Carries(s', u, x) ==> Carries(s, u, x) {
      }
    }
  }

  lemma StartCarriesNothing(sh: Shared, req: Request)
    ensures Tail(Start(req)).Some? ==> Carry(sh, Tail(Start(req)).value) == None
  {
  }

  lemma StepWaiting(s: State, ch: Choice, x: string, ahead: nat)
    requires Enabled(s, ch) && Once(s) && Waiting(s, x, ahead)
    ensures !TakesAddress(s, ch) ==> Waiting(Next(s, ch), x, ahead)
    ensures TakesAddress(s, ch) && ahead > 0 ==> Waiting(Next(s, ch), x, ahead - 1)
  {
    if !TakesAddress(s, ch) || ahead > 0 {
      StepCarriesOn(s, ch, x);
      if ch.Run? && s.threads[ch.thread].code.Do? {
        ExecEffect(s.shared, ch.thread, s.threads[ch.thread].code.action, ch.oracle);
      }
      var pool, pool' := s.shared.pool, Next(s, ch).shared.pool;
      if TakesAddress(s, ch) {
        assert pool'[..ahead - 1] == pool[..ahead][1..];
      } else {
        assert pool'[..ahead] == pool[..ahead];
      }
    }
  }

  lemma OneWaiting(ss: seq<State>, cs: seq<Choice>, k: nat, x: string, ahead: nat)
    requires Trace(ss, cs) && k < |cs| && Waiting(ss[k], x, ahead)
    ensures !TakesAddress(ss[k], cs[k]) ==> Waiting(ss[k + 1], x, ahead)
    ensures TakesAddress(ss[k], cs[k]) && ahead > 0 ==> Waiting(ss[k + 1], x, ahead - 1)
  {
    assert Follows(ss, cs, k);
    Invariants(ss, cs, k);
    StepWaiting(ss[k], cs[k], x, ahead);
  }

  /** Whatever else happens, the addresses in front of x keep it in the pool for n steps that take one. */
  lemma {:induction false} WaitsItsTurn(ss: seq<State>, cs: seq<Choice>, i: nat, j: nat, x: string, ahead: nat)
    requires Trace(ss, cs) && i <= j <= |cs| && Waiting(ss[i], x, ahead) && Shifts(ss, cs, i, j) <= ahead
    ensures Waiting(ss[j], x, ahead - Shifts(ss, cs, i, j))
    decreases j
  {
    if i < j {
      WaitsItsTurn(ss, cs, i, j - 1, x, ahead);
      OneWaiting(ss, cs, j - 1, x, ahead - Shifts(ss, cs, i, j - 1));
    }
  }

  lemma {:induction false} ShiftsGrow(ss: seq<State>, cs: seq<Choice>, i: nat, k: nat, j: nat)
    requires |ss| == |cs| + 1 && i <= k <= j <= |cs|
    ensures Shifts(ss, cs, i, k) <= Shifts(ss, cs, i, j)
    decreases j
  {
    if k < j { ShiftsGrow(ss, cs, i, k, j - 1); }
  }

  /** After its release the address waits behind all that the pool held. */
  lemma ReleasedWaits(ss: seq<State>, cs: seq<Choice>, i: nat, t: nat, r: nat)
    requires Trace(ss, cs) && i < |cs| && NoLateBoot(ss, cs, i) && Accesses(ss[i], cs[i], t, Release(r))
    ensures r < |ss[i].shared.pods| && Waiting(ss[i + 1], ss[i].shared.pods[r].addr, |ss[i].shared.pool|)
    ensures !TakesAddress(ss[i], cs[i])
  {
    AtRelease(ss, cs, i, t, r);
    Invariants(ss, cs, i);
    var s, ch, x := ss[i], cs[i], ss[i].shared.pods[r].addr;
    assert Follows(ss, cs, i);
    StepCarriesOn(s, ch, x);
    ExecEffect(s.shared, t, Release(r), ch.oracle);
    assert ss[i + 1].shared.pool[..|s.shared.pool|] == s.shared.pool;
  }

  lemma {:induction false} ShiftsFromNext(ss: seq<State>, cs: seq<Choice>, i: nat, j: nat)
    requires |ss| == |cs| + 1 && i < j <= |cs| && !TakesAddress(ss[i], cs[i])
    ensures Shifts(ss, cs, i + 1, j) == Shifts(ss, cs, i, j)
    decreases j
  {
    if i + 1 < j { ShiftsFromNext(ss, cs, i, j - 1); }
  }

  /** If at most as many addresses are taken in the window as the pool held at the release, then no pod is listed
      under the address in it, and the late delete finds its own pod or nothing. */
  lemma LateDeleteIsHarmless(ss: seq<State>, cs: seq<Choice>, i: nat, j: nat, t: nat, r: nat, size: nat, at: nat)
    requires Trace(ss, cs) && i < j < |cs| && NoLateBoot(ss, cs, i)
    requires Accesses(ss[i], cs[i], t, Release(r)) && Accesses(ss[j], cs[j], t, Delete(r, size, at))
    requires Shifts(ss, cs, i, j) <= |ss[i].shared.pool|
    ensures r < |ss[i].shared.pods|
    ensures var x, m := ss[i].shared.pods[r].addr, ss[j].shared.vmMap;
            && (x in m ==> m[x] == r)
            && ss[j + 1].shared.vmMap == m - {x}
            && forall k, q | i < k < j :: !ListsUnder(ss[k], cs[k], q, x)
  {
    LateDeleteErases(ss, cs, i, j, t, r, size, at);
    ReleasedWaits(ss, cs, i, t, r);
    ShiftsFromNext(ss, cs, i, j);
    var x := ss[i].shared.pods[r].addr;
    forall k, q | i < k < j ensures !ListsUnder(ss[k], cs[k], q, x) {
      ShiftsGrow(ss, cs, i + 1, k, j);
      WaitsItsTurn(ss, cs, i + 1, k, x, |ss[i].shared.pool|);
      if ListsUnder(ss[k], cs[k], q, x) {
        var u: nat :| Accesses(ss[k], cs[k], u, Insert(q));
        assert Carries(ss[k], u, x);
      }
    }
  }

  // ---------- A delete has its release ----------

  /** Only a release goes on to a delete, of the same pod, and notes the pool it found. */
  ghost predicate DeleteFollowsRelease(sh: Shared, a: Action, code: Code) {
    Tail(code).Some? && Tail(code).value.Delete? ==>
      a.Release? && Tail(code).value == Delete(a.pod, |sh.pool|, sh.shifts)
  }

  lemma OnlyReleaseDeletes(sh: Shared, t: nat, a: Action, o: Oracle)
    requires WellFormed(sh) && Refs(sh, a)
    ensures DeleteFollowsRelease(sh, a, Exec(sh, t, a, o).1)
  {
    Front(Exec(sh, t, a, o).1);
    if IsRun(a) { assert Exec(sh, t, a, o) == RunStep(sh, t, a); }
    else if IsBoot(a) { assert Exec(sh, t, a, o) == BootStep(sh, a, o); }
    else if IsAttach(a) { assert Exec(sh, t, a, o) == AttachStep(sh, a, o); }
    else if IsStop(a) { assert Exec(sh, t, a, o) == StopStep(sh, a, o); }
    else if IsRemove(a) { assert Exec(sh, t, a, o) == RemoveStep(sh, a, o); }
    else { assert Exec(sh, t, a, o) == ReadStep(sh, a, o); }
  }

  /** Thread t is on its way to the delete d. */
  ghost predicate AboutToDelete(s: State, t: nat, d: Action) {
    t < |s.threads| && Tail(s.threads[t].code) == Some(d) && d.Delete?
  }

  lemma OneToDelete(ss: seq<State>, cs: seq<Choice>, k: nat, t: nat, d: Action)
    requires Trace(ss, cs) && k < |cs| && AboutToDelete(ss[k + 1], t, d)
    ensures || AboutToDelete(ss[k], t, d)
            || (Accesses(ss[k], cs[k], t, Release(d.pod)) && |ss[k].shared.pool| == d.size
                && ss[k].shared.shifts == d.at)
  {
    var s, ch := ss[k], cs[k];
    assert Follows(ss, cs, k);
    if ch.Spawn? { StartDeletesNothing(ch.request); }
    if ch.Run? && ch.thread == t && s.threads[t].code.Do? {
      OnlyReleaseDeletes(s.shared, t, s.threads[t].code.action, ch.oracle);
    }
  }

  lemma StartDeletesNothing(req: Request)
    ensures Tail(Start(req)).Some? ==> !Tail(Start(req)).value.Delete?
  {
  }

  /** Whoever is on the way to a delete has made its release. */
  lemma {:induction false} ReleasedBefore(ss: seq<State>, cs: seq<Choice>, j: nat, t: nat, d: Action) returns (i: nat)
    requires Trace(ss, cs) && j < |ss| && AboutToDelete(ss[j], t, d)
    ensures i < j && Accesses(ss[i], cs[i], t, Release(d.pod))
    ensures |ss[i].shared.pool| == d.size && ss[i].shared.shifts == d.at
    decreases j
  {
    assert j > 0;
    OneToDelete(ss, cs, j - 1, t, d);
    i := j - 1;
    if AboutToDelete(ss[j - 1], t, d) { i := ReleasedBefore(ss, cs, j - 1, t, d); }
  }
}
