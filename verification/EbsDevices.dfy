/** The per-VM EBS device allocator (podData in the aws provider): two linked maps,
    one of device letters already handed to the cloud and one of attached volumes. */
module EbsDevices {
  import opened Wrappers

  datatype Volume = Volume(volume: string, mountPoint: string, fsType: string, readOnly: bool, device: string)

  /** usedDevices (its keys) and attached. */
  datatype Allocator = Allocator(used: set<char>, attached: map<string, string>)

  const EMPTY := Allocator({}, map[])

  /** What the cloud does with one attach request: AttachVolume fails, or succeeds but the volume
      is never seen as attached (or cannot be described), or succeeds and is confirmed. */
  datatype Outcome = Rejected | Unconfirmed | Confirmed

  /** What Attach decides before it calls the cloud. */
  datatype Decision = Already(device: string) | Refuse | Try(device: string)

  datatype Call = Call(vol: string, device: string, outcome: Outcome)

  function Letter(device: string): char
    requires device != ""
  {
    device[|device| - 1]
  }

  function DevicePath(c: char): string { "/dev/xvd" + [c] }

  /** The first letter in c..'p' that is not used. */
  function FirstFree(used: set<char>, c: char): Option<char>
    requires 'f' <= c <= 'q'
    decreases 'q' as int - c as int
  {
    if c == 'q' then None
    else if c !in used then Some(c)
    else FirstFree(used, c + (1 as char))
  }

  function Decide(a: Allocator, vol: string, device: string): Decision {
    if vol in a.attached then
      if device != "" && a.attached[vol] == device then Already(device) else Refuse
    else if device != "" then
      if Letter(device) in a.used then Refuse else Try(device)
    else
      match FirstFree(a.used, 'f')
      case None => Refuse
      case Some(c) => Try(DevicePath(c))
  }

  function Reserve(a: Allocator, device: string): Allocator
    requires device != ""
  {
    a.(used := a.used + {Letter(device)})
  }

  function Record(a: Allocator, vol: string, device: string): Allocator {
    a.(attached := a.attached[vol := device])
  }

  /** One whole Attach call: the new maps and what the caller gets back. */
  function Step(a: Allocator, call: Call): (Allocator, Result<string>) {
    match Decide(a, call.vol, call.device)
    case Already(dev) => (a, Ok(dev))
    case Refuse => (a, Err)
    case Try(dev) =>
      TryHasLetter(a, call.vol, call.device);
      match call.outcome
      case Rejected => (Reserve(a, dev), Err)
      case Unconfirmed => (Record(Reserve(a, dev), call.vol, dev), Err)
      case Confirmed => (Record(Reserve(a, dev), call.vol, dev), Ok(dev))
  }

  function Run(a: Allocator, calls: seq<Call>): Allocator
    decreases |calls|
  {
    if calls == [] then a else Run(Step(a, calls[0]).0, calls[1..])
  }

  /** The volumes whose AttachVolume request the cloud accepted, in order. */
  function CloudLog(a: Allocator, calls: seq<Call>): seq<string>
    decreases |calls|
  {
    if calls == [] then []
    else
      (if Decide(a, calls[0].vol, calls[0].device).Try? && !calls[0].outcome.Rejected? then [calls[0].vol] else [])
      + CloudLog(Step(a, calls[0]).0, calls[1..])
  }

  /** How many AttachVolume requests the cloud rejected. */
  function Rejections(a: Allocator, calls: seq<Call>): nat
    decreases |calls|
  {
    if calls == [] then 0
    else
      (if Decide(a, calls[0].vol, calls[0].device).Try? && calls[0].outcome.Rejected? then 1 else 0)
      + Rejections(Step(a, calls[0]).0, calls[1..])
  }

  /** Attached volumes sit on devices with distinct last letters, all of them marked used. */
  ghost predicate Consistent(a: Allocator) {
    && (forall v | v in a.attached :: a.attached[v] != "" && Letter(a.attached[v]) in a.used)
    && (forall v, w | v in a.attached && w in a.attached && v != w ::
          a.attached[v] != "" && a.attached[w] != "" && Letter(a.attached[v]) != Letter(a.attached[w]))
  }

  // ---------- Automatic placement ----------

  lemma {:induction false} FirstFreeMeaning(used: set<char>, c: char)
    requires 'f' <= c <= 'q'
    ensures FirstFree(used, c).None? <==> forall d: char | c <= d <= 'p' :: d in used
    ensures forall d: char :: FirstFree(used, c) == Some(d) <==>
                              (c <= d <= 'p' && d !in used && forall e: char | c <= e < d :: e in used)
    decreases 'q' as int - c as int
  {
    if c == 'q' {
    } else if c !in used {
    } else {
      FirstFreeMeaning(used, c + (1 as char));
    }
  }

  lemma TryHasLetter(a: Allocator, vol: string, device: string)
    ensures var d := Decide(a, vol, device);
            d.Try? ==> d.device != "" && Letter(d.device) !in a.used && vol !in a.attached
  {
    FirstFreeMeaning(a.used, 'f');
  }

  /** The maps and the result after a request to attach vol at the device with letter c: the letter is used up in any
      case, the volume is attached unless the request was rejected, and the device is returned when it is confirmed. */
  function Placed(a: Allocator, vol: string, device: string, c: char, outcome: Outcome): (Allocator, Result<string>) {
    (Allocator(a.used + {c}, if outcome.Rejected? then a.attached else a.attached[vol := device]),
     if outcome.Confirmed? then Ok(device) else Err)
  }

  /** An attach at a named device changes nothing and fails when the device's letter is used, and otherwise asks for
      exactly that device. */
  lemma NamedPlacement(a: Allocator, vol: string, device: string, outcome: Outcome)
    requires vol !in a.attached && device != ""
    ensures var c := device[|device| - 1];
            Step(a, Call(vol, device, outcome)) == if c in a.used then (a, Err) else Placed(a, vol, device, c, outcome)
  {
  }

  /** An attach without a device name takes the least letter of f..p that no earlier request used,
      and is refused for want of a device exactly when all eleven are used. */
  lemma AutomaticPlacement(a: Allocator, vol: string, outcome: Outcome)
    requires vol !in a.attached
    ensures var d := Decide(a, vol, "");
            && (d == Refuse <==> forall c: char | 'f' <= c <= 'p' :: c in a.used)
            && (d != Refuse ==> exists c: char :: 'f' <= c <= 'p' && d == Try("/dev/xvd" + [c]) && c !in a.used
                                                 && (forall e: char | 'f' <= e < c :: e in a.used)
                                                 && Step(a, Call(vol, "", outcome))
                                                    == Placed(a, vol, "/dev/xvd" + [c], c, outcome))
            && (d == Refuse ==> Step(a, Call(vol, "", outcome)) == (a, Err))
  {
    FirstFreeMeaning(a.used, 'f');
    match FirstFree(a.used, 'f')
    case None =>
    case Some(c) =>
      assert Decide(a, vol, "") == Try("/dev/xvd" + [c]);
      assert Letter(DevicePath(c)) == c;
  }

  // ---------- Every sequence of calls ----------

  lemma StepKeepsConsistent(a: Allocator, call: Call)
    requires Consistent(a)
    ensures Consistent(Step(a, call).0)
  {
    TryHasLetter(a, call.vol, call.device);
  }

  /** What one call adds to the books: every letter it marks is paid for by one attached volume or one rejection. */
  lemma StepAccounts(a: Allocator, call: Call)
    ensures var b := Step(a, call).0;
            var tries := Decide(a, call.vol, call.device).Try?;
            && |b.used| == |a.used| + (if tries then 1 else 0)
            && b.attached.Keys == a.attached.Keys + (if tries && !call.outcome.Rejected? then {call.vol} else {})
            && |b.attached| == |a.attached| + (if tries && !call.outcome.Rejected? then 1 else 0)
            && (tries ==> call.vol !in a.attached)
            && (forall v | v in a.attached :: v in b.attached && b.attached[v] == a.attached[v])
            && a.used <= b.used
  {
    TryHasLetter(a, call.vol, call.device);
    match Decide(a, call.vol, call.device)
    case Try(dev) =>
      assert Step(a, call).0
             == if call.outcome.Rejected? then Reserve(a, dev) else Record(Reserve(a, dev), call.vol, dev);
      ReserveAccounts(a, dev, call.vol);
    case _ =>
  }

  lemma ReserveAccounts(a: Allocator, dev: string, vol: string)
    requires dev != "" && Letter(dev) !in a.used && vol !in a.attached
    ensures |Reserve(a, dev).used| == |a.used| + 1 && Reserve(a, dev).attached == a.attached
    ensures var b := Record(Reserve(a, dev), vol, dev);
            && b.attached.Keys == a.attached.Keys + {vol} && |b.attached| == |a.attached| + 1
            && (forall v | v in a.attached :: v in b.attached && b.attached[v] == a.attached[v])
  {
    var b := Record(Reserve(a, dev), vol, dev);
    assert b.attached.Keys == a.attached.Keys + {vol};
    assert |b.attached| == |b.attached.Keys| && |a.attached| == |a.attached.Keys|;
  }

  /** Over every sequence of Attach calls and cloud answers, devices stay distinct and the letters
      used are exactly one per attached volume plus one per rejected request. */
  lemma {:induction false} DevicesOverRun(a: Allocator, calls: seq<Call>)
    requires Consistent(a)
    ensures Consistent(Run(a, calls))
    ensures |Run(a, calls).used| - |Run(a, calls).attached| == |a.used| - |a.attached| + Rejections(a, calls)
    decreases |calls|
  {
    if calls != [] {
      var b := Step(a, calls[0]).0;
      assert Consistent(b) by { StepKeepsConsistent(a, calls[0]); }
      StepAccounts(a, calls[0]);
      DevicesOverRun(b, calls[1..]);
    }
  }

  lemma DeviceInvariant(calls: seq<Call>)
    ensures Consistent(Run(EMPTY, calls))
    ensures |Run(EMPTY, calls).used| == |Run(EMPTY, calls).attached| + Rejections(EMPTY, calls)
  {
    DevicesOverRun(EMPTY, calls);
  }

  /** The cloud accepts at most one attach per volume, however the calls repeat volumes:
      the accepted volumes are exactly the attached ones, each once. */
  lemma {:induction false} AttachedAtMostOnce(a: Allocator, calls: seq<Call>)
    ensures NoDup(CloudLog(a, calls))
    ensures forall v :: v in CloudLog(a, calls) <==> v in Run(a, calls).attached && v !in a.attached
    decreases |calls|
  {
    if calls != [] {
      StepAccounts(a, calls[0]);
      var b := Step(a, calls[0]).0;
      AttachedAtMostOnce(b, calls[1..]);
      AttachedGrow(b, calls[1..]);
    }
  }

  /** An attached volume keeps its device, and a used letter stays used, for the life of the VM. */
  lemma {:induction false} AttachedGrow(a: Allocator, calls: seq<Call>)
    ensures forall v | v in a.attached :: v in Run(a, calls).attached && Run(a, calls).attached[v] == a.attached[v]
    ensures a.used <= Run(a, calls).used
    decreases |calls|
  {
    if calls != [] {
      StepAccounts(a, calls[0]);
      AttachedGrow(Step(a, calls[0]).0, calls[1..]);
    }
  }

  lemma {:induction false} RunConcat(a: Allocator, first: seq<Call>, second: seq<Call>)
    ensures Run(a, first + second) == Run(Run(a, first), second)
    decreases |first|
  {
    if first == [] {
      assert first + second == second;
    } else {
      assert (first + second)[1..] == first[1..] + second;
      RunConcat(Step(a, first[0]).0, first[1..], second);
    }
  }

  lemma {:induction false} RunAppend(a: Allocator, calls: seq<Call>, last: Call)
    ensures Run(a, calls + [last]) == Step(Run(a, calls), last).0
    decreases |calls|
  {
    if calls == [] {
      assert Run(Step(a, last).0, []) == Step(a, last).0;
      assert ([] + [last])[1..] == [];
    } else {
      assert (calls + [last])[1..] == calls[1..] + [last];
      RunAppend(Step(a, calls[0]).0, calls[1..], last);
    }
  }

  /** The device the k-th call asked the cloud for, if it asked at all. */
  function Asked(calls: seq<Call>, k: nat): Option<string>
    requires k < |calls|
  {
    match Decide(Run(EMPTY, calls[..k]), calls[k].vol, calls[k].device)
    case Try(dev) => Some(dev)
    case _ => None
  }

  ghost predicate AsksLetter(calls: seq<Call>, k: nat, c: char)
    requires k < |calls|
  {
    Asked(calls, k).Some? && Asked(calls, k).value != "" && Letter(Asked(calls, k).value) == c
  }

  /** A letter is used exactly when some call so far has asked the cloud for a device with it. */
  lemma {:induction false} UsedMeansAsked(calls: seq<Call>, c: char)
    ensures c in Run(EMPTY, calls).used <==> exists k :: 0 <= k < |calls| && AsksLetter(calls, k, c)
    decreases |calls|
  {
    if calls != [] {
      var n := |calls| - 1;
      var before := calls[..n];
      UsedMeansAsked(before, c);
      assert calls == before + [calls[n]];
      RunAppend(EMPTY, before, calls[n]);
      TryHasLetter(Run(EMPTY, before), calls[n].vol, calls[n].device);
      assert AsksLetter(calls, n, c) <==> c in Run(EMPTY, calls).used && c !in Run(EMPTY, before).used;
      forall k | 0 <= k < n ensures AsksLetter(calls, k, c) <==> AsksLetter(before, k, c) {
        assert calls[..k] == before[..k];
      }
    }
  }

  /** Over every sequence of calls, an attach of a new volume at a named device is refused exactly when an earlier call
      has asked the cloud for a device with the same letter, whatever came of it. */
  lemma NamedRefused(calls: seq<Call>, vol: string, device: string, outcome: Outcome)
    requires vol !in Run(EMPTY, calls).attached && device != ""
    ensures var a := Run(EMPTY, calls);
            Step(a, Call(vol, device, outcome)) == (a, Err) <==>
            exists k :: 0 <= k < |calls| && AsksLetter(calls, k, Letter(device))
  {
    UsedMeansAsked(calls, Letter(device));
    NamedPlacement(Run(EMPTY, calls), vol, device, outcome);
  }

  /** What a later attach of an attached volume gives, however many calls for whatever volumes lie between: the
      first device when the caller names that very device, an error otherwise, and in no case another cloud request
      or a changed map. */
  lemma LaterAttach(a: Allocator, first: Call, between: seq<Call>, later: Call)
    requires Decide(a, first.vol, first.device).Try? && !first.outcome.Rejected?
    requires later.vol == first.vol
    ensures var dev := Decide(a, first.vol, first.device).device;
            var b := Run(Step(a, first).0, between);
            && Step(b, later) == (b, if later.device == dev then Ok(dev) else Err)
            && CloudLog(b, [later]) == []
            && Rejections(b, [later]) == 0
  {
    TryHasLetter(a, first.vol, first.device);
    AttachedGrow(Step(a, first).0, between);
  }
}
