/** The providerData object of a booted aws VM, and the two loops that attach volumes through it. */
module EbsVolumes {
  import opened Wrappers
  import opened Strings
  import opened EbsDevices
  import opened Mounts

  /** A MountFs request sent into the VM. */
  datatype MountFs = MountFs(device: string, mountPoint: string, fsType: string, readOnly: bool)

  /** A container mount of a CreateContainer request. */
  datatype HostMount = HostMount(path: string, readOnly: bool)

  /** The Attach calls of the boot loop, each at the device its volume names. */
  function BootCalls(volumes: seq<Volume>, cloud: seq<Outcome>): seq<Call>
    requires |cloud| == |volumes|
  {
    seq(|volumes|, i requires 0 <= i < |volumes| => Call(volumes[i].volume, volumes[i].device, cloud[i]))
  }

  /** The mounts the boot loop asks for: those of the volumes that have a mount point and whose attach, run after
      all earlier ones, returned a device. */
  function BootMounts(a: Allocator, volumes: seq<Volume>, cloud: seq<Outcome>): seq<MountFs>
    requires |cloud| == |volumes|
    decreases |volumes|
  {
    if volumes == [] then []
    else
      var n := |volumes| - 1;
      var before := Run(a, BootCalls(volumes[..n], cloud[..n]));
      var v := volumes[n];
      BootMounts(a, volumes[..n], cloud[..n]) + MountOf(v, Step(before, Call(v.volume, v.device, cloud[n])).1)
  }

  function MountOf(v: Volume, device: Result<string>): seq<MountFs> {
    if device.Ok? && v.mountPoint != "" then [MountFs(device.value, v.mountPoint, v.fsType, v.readOnly)] else []
  }

  /** One more volume of the boot loop. */
  lemma BootTurn(a: Allocator, volumes: seq<Volume>, cloud: seq<Outcome>, i: nat)
    requires |cloud| == |volumes| && i < |volumes|
    ensures var calls := BootCalls(volumes[..i], cloud[..i]);
            var call := Call(volumes[i].volume, volumes[i].device, cloud[i]);
            && BootCalls(volumes[..i + 1], cloud[..i + 1]) == calls + [call]
            && Run(a, calls + [call]) == Step(Run(a, calls), call).0
            && BootMounts(a, volumes[..i + 1], cloud[..i + 1])
               == BootMounts(a, volumes[..i], cloud[..i]) + MountOf(volumes[i], Step(Run(a, calls), call).1)
  {
    var calls, call := BootCalls(volumes[..i], cloud[..i]), Call(volumes[i].volume, volumes[i].device, cloud[i]);
    RunAppend(a, calls, call);
    assert volumes[..i + 1][..i] == volumes[..i] && cloud[..i + 1][..i] == cloud[..i];
    assert BootCalls(volumes[..i + 1], cloud[..i + 1]) == calls + [call];
  }

  /** The request mounts the volume at its mount point, with its file system and flag. */
  predicate MountsVolume(x: MountFs, v: Volume) {
    x.mountPoint == v.mountPoint != "" && x.fsType == v.fsType && x.readOnly == v.readOnly
  }

  /** What the attach of volume i of the boot loop returns. */
  function Returned(a: Allocator, volumes: seq<Volume>, cloud: seq<Outcome>, i: nat): Result<string>
    requires |cloud| == |volumes| && i < |volumes|
  {
    Step(Run(a, BootCalls(volumes[..i], cloud[..i])), Call(volumes[i].volume, volumes[i].device, cloud[i])).1
  }

  /** The k-th mount is that of volume at[k], on the device its attach returned; at goes up the list and names exactly
      the volumes that have a mount point and whose attach returned a device. */
  ghost predicate MountsInOrder(a: Allocator, volumes: seq<Volume>, cloud: seq<Outcome>, mounted: seq<MountFs>,
                                at: seq<nat>)
    requires |cloud| == |volumes|
  {
    && |at| == |mounted| && (forall k, l | 0 <= k < l < |at| :: at[k] < at[l])
    && (forall k | 0 <= k < |at| :: at[k] < |volumes| && MountsVolume(mounted[k], volumes[at[k]])
                                    && Returned(a, volumes, cloud, at[k]) == Ok(mounted[k].device))
    && (forall i: nat | i < |volumes| :: i in at <==> volumes[i].mountPoint != "" && Returned(a, volumes, cloud, i).Ok?)
  }

  lemma ReturnedBefore(a: Allocator, volumes: seq<Volume>, cloud: seq<Outcome>, n: nat, i: nat)
    requires |cloud| == |volumes| && i < n <= |volumes|
    ensures Returned(a, volumes[..n], cloud[..n], i) == Returned(a, volumes, cloud, i)
  {
    assert volumes[..n][..i] == volumes[..i] && cloud[..n][..i] == cloud[..i];
  }

  lemma {:induction false} BootMountsInOrder(a: Allocator, volumes: seq<Volume>, cloud: seq<Outcome>)
    returns (at: seq<nat>)
    requires |cloud| == |volumes|
    ensures MountsInOrder(a, volumes, cloud, BootMounts(a, volumes, cloud), at)
    decreases |volumes|
  {
    if volumes == [] {
      at := [];
    } else {
      var n := |volumes| - 1;
      at := BootMountsInOrder(a, volumes[..n], cloud[..n]);
      var mounted, r := BootMounts(a, volumes[..n], cloud[..n]), Returned(a, volumes, cloud, n);
      assert BootMounts(a, volumes, cloud) == mounted + MountOf(volumes[n], r);
      at := OneMoreInOrder(a, volumes, cloud, mounted, at);
    }
  }

  lemma OneMoreInOrder(a: Allocator, volumes: seq<Volume>, cloud: seq<Outcome>, mounted: seq<MountFs>, at: seq<nat>)
    returns (at': seq<nat>)
    requires |cloud| == |volumes| > 0
    requires var n := |volumes| - 1; MountsInOrder(a, volumes[..n], cloud[..n], mounted, at)
    ensures var n := |volumes| - 1;
            MountsInOrder(a, volumes, cloud, mounted + MountOf(volumes[n], Returned(a, volumes, cloud, n)), at')
  {
    var n := |volumes| - 1;
    var r := Returned(a, volumes, cloud, n);
    forall i: nat | i < n ensures Returned(a, volumes[..n], cloud[..n], i) == Returned(a, volumes, cloud, i) {
      ReturnedBefore(a, volumes, cloud, n, i);
    }
    at' := at + if r.Ok? && volumes[n].mountPoint != "" then [n] else [];
    var mounted' := mounted + MountOf(volumes[n], r);
    forall k | 0 <= k < |at'|
      ensures at'[k] < |volumes| && MountsVolume(mounted'[k], volumes[at'[k]])
      ensures Returned(a, volumes, cloud, at'[k]) == Ok(mounted'[k].device)
    {
      if k < |at| { assert at[k] < n && volumes[..n][at[k]] == volumes[at[k]]; }
    }
    forall i: nat | i < |volumes|
      ensures i in at' <==> volumes[i].mountPoint != "" && Returned(a, volumes, cloud, i).Ok?
    {
      if i < n { assert i in at' <==> i in at; assert volumes[..n][i] == volumes[i]; } else { assert n !in at; }
    }
  }

  /** Every mount of the boot loop is for one of its volumes, on the device that volume is attached at in the end. */
  lemma BootMountsServe(a: Allocator, volumes: seq<Volume>, cloud: seq<Outcome>)
    requires |cloud| == |volumes|
    ensures var end := Run(a, BootCalls(volumes, cloud)).attached;
            forall x | x in BootMounts(a, volumes, cloud) ::
              exists v :: v in volumes && MountsVolume(x, v) && v.volume in end && end[v.volume] == x.device
  {
    var end := Run(a, BootCalls(volumes, cloud)).attached;
    var mounted := BootMounts(a, volumes, cloud);
    var at := BootMountsInOrder(a, volumes, cloud);
    forall x | x in mounted
      ensures exists v :: v in volumes && MountsVolume(x, v) && v.volume in end && end[v.volume] == x.device
    {
      var k :| 0 <= k < |mounted| && mounted[k] == x;
      ReturnedStays(a, volumes, cloud, at[k]);
      assert volumes[at[k]] in volumes;
    }
  }

  /** The device an attach returns is where the volume is, then and at the end. */
  lemma ReturnedStays(a: Allocator, volumes: seq<Volume>, cloud: seq<Outcome>, i: nat)
    requires |cloud| == |volumes| && i < |volumes| && Returned(a, volumes, cloud, i).Ok?
    ensures var end := Run(a, BootCalls(volumes, cloud)).attached;
            volumes[i].volume in end && end[volumes[i].volume] == Returned(a, volumes, cloud, i).value
  {
    var calls := BootCalls(volumes, cloud);
    var call := Call(volumes[i].volume, volumes[i].device, cloud[i]);
    assert calls[..i] == BootCalls(volumes[..i], cloud[..i]) && calls[i] == call;
    RunAppend(a, calls[..i], call);
    assert calls[..i] + [call] == calls[..i + 1];
    RunConcat(a, calls[..i + 1], calls[i + 1..]);
    assert calls == calls[..i + 1] + calls[i + 1..];
    AttachedGrow(Run(a, calls[..i + 1]), calls[i + 1..]);
  }

  /** Some registered mount point of volume vol lies above the path. */
  ghost predicate FlexVolumeFor(mountMap: map<string, string>, path: string, vol: string) {
    exists m :: m in mountMap && m != "" && IsAncestor(m, path) && mountMap[m] == vol
  }

  class EbsData {
    var usedDevices: set<char>
    var attached: map<string, string>
    ghost var calls: seq<Call>  // every Attach so far, with the cloud's answer

    ghost function State(): Allocator
      reads this
    {
      Allocator(usedDevices, attached)
    }

    ghost predicate Valid()
      reads this
    {
      State() == Run(EMPTY, calls)
    }

    constructor ()
      ensures Valid() && calls == []
    {
      usedDevices, attached, calls := {}, map[], [];
    }

    /** cloud is what AttachVolume and the polling after it come to, if they are reached. */
    method Attach(vol: string, device: string, cloud: Outcome) returns (r: Result<string>)
      requires Valid()
      modifies this
      ensures Valid() && calls == old(calls) + [Call(vol, device, cloud)]
      ensures State() == Step(old(State()), Call(vol, device, cloud)).0
      ensures r == Step(old(State()), Call(vol, device, cloud)).1
    {
      RunAppend(EMPTY, calls, Call(vol, device, cloud));
      calls := calls + [Call(vol, device, cloud)];
      if vol in attached {
        if device != "" && attached[vol] == device { return Ok(device); }
        return Err;
      }
      var dev := "";
      if device != "" {
        var c := Letter(device);
        if c in usedDevices { return Err; }
        usedDevices := usedDevices + {c};
        dev := device;
      } else {
        dev := Place();
        if dev == "" { return Err; }
      }
      if cloud.Rejected? { return Err; }
      attached := attached[vol := dev];
      if cloud.Unconfirmed? { return Err; }
      return Ok(dev);
    }

    /** The automatic choice: walk the letters f..p and take the first that is not used. */
    method Place() returns (dev: string)
      modifies `usedDevices
      ensures match FirstFree(old(usedDevices), 'f')
              case None => dev == "" && usedDevices == old(usedDevices)
              case Some(c) => dev == DevicePath(c) && usedDevices == old(usedDevices) + {c}
    {
      var i := 'f';
      while i <= 'p'
        invariant 'f' <= i <= 'q' && usedDevices == old(usedDevices)
        invariant FirstFree(usedDevices, 'f') == FirstFree(usedDevices, i)
        decreases 'q' as int - i as int
      {
        if i !in usedDevices {
          usedDevices := usedDevices + {i};
          return DevicePath(i);
        }
        i := i + (1 as char);
      }
      return "";
    }

    method NeedMount(vol: string) returns (need: bool)
      ensures need <==> vol !in attached
    {
      need := vol !in attached;
    }

    /** Step 5 of bootSandbox: attach every volume of the pod where it asks to be, mount those that succeed. */
    method BootVolumes(volumes: seq<Volume>, cloud: seq<Outcome>) returns (mounted: seq<MountFs>)
      requires Valid() && |cloud| == |volumes|
      modifies this
      ensures Valid() && calls == old(calls) + BootCalls(volumes, cloud)
      ensures |calls| == |old(calls)| + |volumes|
      ensures forall i | 0 <= i < |volumes| ::
                calls[|old(calls)| + i] == Call(volumes[i].volume, volumes[i].device, cloud[i])
      ensures mounted == BootMounts(old(State()), volumes, cloud)
      ensures forall x | x in mounted :: exists v :: v in volumes && Serves(x, v)
      ensures exists at :: MountsInOrder(old(State()), volumes, cloud, mounted, at)
    {
      mounted := [];
      ghost var start, earlier := State(), calls;
      for i := 0 to |volumes|
        invariant Valid() && calls == earlier + BootCalls(volumes[..i], cloud[..i])
        invariant State() == Run(start, BootCalls(volumes[..i], cloud[..i]))
        invariant mounted == BootMounts(start, volumes[..i], cloud[..i])
      {
        var vol := volumes[i];
        BootTurn(start, volumes, cloud, i);
        ghost var before := BootCalls(volumes[..i], cloud[..i]);
        var device := Attach(vol.volume, vol.device, cloud[i]);
        assert calls == earlier + (before + [Call(vol.volume, vol.device, cloud[i])]);
        if device.Ok? && vol.mountPoint != "" {
          mounted := mounted + [MountFs(device.value, vol.mountPoint, vol.fsType, vol.readOnly)];
        }
      }
      assert volumes[..|volumes|] == volumes && cloud[..|volumes|] == cloud;
      BootMountsServe(start, volumes, cloud);
      var _ := BootMountsInOrder(start, volumes, cloud);
    }

    /** The mount request is for the volume: at its mount point, with its file system and flag, on the device it is
        attached at. */
    ghost predicate Serves(x: MountFs, v: Volume)
      reads this
    {
      MountsVolume(x, v) && v.volume in attached && attached[v.volume] == x.device
    }

    /** The volume is attached, or an attach was requested since call n. */
    ghost predicate Tried(vol: string, n: nat)
      reads this
    {
      TriedIn(attached, calls, vol, n)
    }

    /** One turn of the mount loop of createContainer for a mount that is a flex volume: a volume not yet attached
        is attached at the next free device and mounted at its mount point. */
    method MountVolume(mount: HostMount, point: string, vol: string, cloud: Outcome) returns (mounted: Option<MountFs>)
      requires Valid()
      modifies this
      ensures Valid()
      ensures calls == if vol in old(attached) then old(calls) else old(calls) + [Call(vol, "", cloud)]
      ensures State() == if vol in old(attached) then old(State()) else Step(old(State()), Call(vol, "", cloud)).0
      ensures mounted == if vol in attached && vol !in old(attached) && cloud.Confirmed?
                         then Some(MountFs(attached[vol], point, "ext4", mount.readOnly)) else None
    {
      TryHasLetter(State(), vol, "");
      var need := NeedMount(vol);
      if need {
        var dev := Attach(vol, "", cloud);
        if dev.Ok? { return Some(MountFs(dev.value, point, "ext4", mount.readOnly)); }
      }
      return None;
    }

    /** One turn for a container mount: nothing unless a registered mount point lies above its path. */
    method MountOne(mount: HostMount, mountMap: map<string, string>, cloud: Outcome) returns (mounted: Option<MountFs>)
      requires Valid()
      modifies this
      ensures Valid()
      ensures (forall v :: !FlexVolumeFor(mountMap, mount.path, v)) ==> calls == old(calls) && mounted == None
      ensures (exists v :: FlexVolumeFor(mountMap, mount.path, v)) ==>
                exists v :: FlexVolumeFor(mountMap, mount.path, v)
                            && calls == old(calls) + (if v in old(attached) then [] else [Call(v, "", cloud)])
      ensures old(calls) <= calls && forall k | |old(calls)| <= k < |calls| :: AskedFor([mount], mountMap, calls[k])
      ensures (exists v :: FlexVolumeFor(mountMap, mount.path, v)) ==> Served(mount.path, mountMap, |old(calls)|)
      ensures forall v | v in old(attached) :: v in attached && attached[v] == old(attached[v])
      ensures mounted.Some? ==> Sound(mounted.value, mountMap) && mountMap[mounted.value.mountPoint] !in old(attached)
    {
      var found := IsFlexVolMnt(mount.path, mountMap);
      if found.None? {
        forall v ensures !FlexVolumeFor(mountMap, mount.path, v) {}
        return None;
      }
      var vol := mountMap[found.value];
      assert FlexVolumeFor(mountMap, mount.path, vol);
      StepAccounts(State(), Call(vol, "", cloud));
      mounted := MountVolume(mount, found.value, vol, cloud);
      assert [mount][0] == mount;
      assert vol !in old(attached) ==> calls[|old(calls)|].vol == vol;
      assert Tried(vol, |old(calls)|);
    }

    /** The mount request is for the volume registered at its mount point, on the device that volume is attached at. */
    ghost predicate Sound(x: MountFs, mountMap: map<string, string>)
      reads this
    {
      SoundIn(attached, x, mountMap)
    }

    /** Some volume registered above the path is attached or was requested since call n. */
    ghost predicate Served(path: string, mountMap: map<string, string>, n: nat)
      reads this
    {
      ServedIn(attached, calls, path, mountMap, n)
    }

    /** The mount loop of createContainer, the mounts that are no flex volumes left out. */
    method MountVolumes(mounts: seq<HostMount>, mountMap: map<string, string>, cloud: seq<Outcome>)
      returns (mounted: seq<MountFs>)
      requires Valid() && |cloud| == |mounts|
      modifies this
      ensures Valid() && old(calls) <= calls
      ensures forall i | 0 <= i < |mounts| && (exists v :: FlexVolumeFor(mountMap, mounts[i].path, v)) ::
                Served(mounts[i].path, mountMap, |old(calls)|)
      ensures forall k | |old(calls)| <= k < |calls| :: AskedFor(mounts, mountMap, calls[k])
      ensures forall x | x in mounted :: Sound(x, mountMap) && mountMap[x.mountPoint] !in old(attached)
    {
      mounted := [];
      for i := 0 to |mounts|
        invariant Valid() && old(calls) <= calls
        invariant LoopDone(mounts, mountMap, i, |old(calls)|, old(attached), attached, calls, mounted)
      {
        mounted := MountTurn(mounts, mountMap, cloud[i], i, mounted, |old(calls)|, old(attached));
      }
    }

    /** One turn of it. */
    method MountTurn(mounts: seq<HostMount>, mountMap: map<string, string>, cloud: Outcome, i: nat,
                     earlier: seq<MountFs>, ghost n: nat, ghost before: map<string, string>)
      returns (mounted: seq<MountFs>)
      requires Valid() && i < |mounts| && n <= |calls|
      requires LoopDone(mounts, mountMap, i, n, before, attached, calls, earlier)
      modifies this
      ensures Valid() && old(calls) <= calls && LoopDone(mounts, mountMap, i + 1, n, before, attached, calls, mounted)
    {
      ghost var was, done := attached, calls;
      var m := MountOne(mounts[i], mountMap, cloud);
      mounted := earlier + if m.Some? then [m.value] else [];
      TurnDone(mounts, mountMap, i, n, before, was, done, earlier, attached, calls, m);
    }
  }

  ghost predicate TriedIn(attached: map<string, string>, calls: seq<Call>, vol: string, n: nat) {
    vol in attached || exists i :: n <= i < |calls| && calls[i].vol == vol
  }

  ghost predicate ServedIn(attached: map<string, string>, calls: seq<Call>, path: string, mountMap: map<string, string>,
                           n: nat) {
    exists v :: FlexVolumeFor(mountMap, path, v) && TriedIn(attached, calls, v, n)
  }

  ghost predicate SoundIn(attached: map<string, string>, x: MountFs, mountMap: map<string, string>) {
    && x.mountPoint in mountMap && x.mountPoint != ""
    && mountMap[x.mountPoint] in attached && attached[mountMap[x.mountPoint]] == x.device
  }

  /** What the turns of the mount loop for the first i mounts have done since call n, when before was attached. */
  ghost predicate LoopDone(mounts: seq<HostMount>, mountMap: map<string, string>, i: nat, n: nat,
                           before: map<string, string>, attached: map<string, string>, calls: seq<Call>,
                           mounted: seq<MountFs>)
    requires i <= |mounts|
  {
    && (forall v | v in before :: v in attached)
    && (forall j | 0 <= j < i && (exists v :: FlexVolumeFor(mountMap, mounts[j].path, v)) ::
          ServedIn(attached, calls, mounts[j].path, mountMap, n))
    && (forall k | n <= k < |calls| :: AskedFor(mounts, mountMap, calls[k]))
    && (forall x | x in mounted :: SoundIn(attached, x, mountMap) && mountMap[x.mountPoint] !in before)
  }

  lemma TurnDone(mounts: seq<HostMount>, mountMap: map<string, string>, i: nat, n: nat, before: map<string, string>,
                 was: map<string, string>, done: seq<Call>, earlier: seq<MountFs>,
                 attached: map<string, string>, calls: seq<Call>, m: Option<MountFs>)
    requires i < |mounts| && n <= |done| && LoopDone(mounts, mountMap, i, n, before, was, done, earlier)
    requires done <= calls && forall v | v in was :: v in attached && attached[v] == was[v]
    requires forall k | |done| <= k < |calls| :: AskedFor([mounts[i]], mountMap, calls[k])
    requires (exists v :: FlexVolumeFor(mountMap, mounts[i].path, v)) ==>
               ServedIn(attached, calls, mounts[i].path, mountMap, |done|)
    requires m.Some? ==> SoundIn(attached, m.value, mountMap) && mountMap[m.value.mountPoint] !in was
    ensures LoopDone(mounts, mountMap, i + 1, n, before, attached, calls, earlier + if m.Some? then [m.value] else [])
  {
    forall v | TriedIn(was, done, v, n) || TriedIn(attached, calls, v, |done|) ensures TriedIn(attached, calls, v, n) {
      if k :| n <= k < |done| && done[k].vol == v { assert calls[k].vol == v; }
    }
    forall j | 0 <= j <= i && (exists v :: FlexVolumeFor(mountMap, mounts[j].path, v))
      ensures ServedIn(attached, calls, mounts[j].path, mountMap, n)
    {
      var v :| FlexVolumeFor(mountMap, mounts[j].path, v)
               && if j < i then TriedIn(was, done, v, n) else TriedIn(attached, calls, v, |done|);
    }
    forall k | n <= k < |calls| ensures AskedFor(mounts, mountMap, calls[k]) {
      if k < |done| { assert calls[k] == done[k]; }
    }
  }

  /** The attach, at the next free device, is for a volume registered above the path of one of the mounts. */
  ghost predicate AskedFor(mounts: seq<HostMount>, mountMap: map<string, string>, call: Call) {
    call.device == "" && exists i :: 0 <= i < |mounts| && FlexVolumeFor(mountMap, mounts[i].path, call.vol)
  }

  // ---------- The life of one VM ----------

  /** Whatever the boot loop and all later createContainer loops of a VM did: the cloud accepted each volume at
      most once, exactly the recorded ones, and devices and letters are as DeviceInvariant says. */
  lemma OverTheLifeOfAVm(d: EbsData)
    requires d.Valid()
    ensures NoDup(CloudLog(EMPTY, d.calls))
    ensures forall v :: v in CloudLog(EMPTY, d.calls) <==> v in d.attached
    ensures Consistent(d.State())
    ensures |d.usedDevices| == |d.attached| + Rejections(EMPTY, d.calls)
  {
    AttachedAtMostOnce(EMPTY, d.calls);
    DeviceInvariant(d.calls);
  }
}
