/** Mount points: the string test by which a container mount is recognized as a flex volume, and the registry
    that AddMount, DelMount and pod removal maintain. */
module Mounts {
  import opened Wrappers
  import opened Strings
  import opened EbsDevices

  // ---------- isFlexVolMnt ----------

  /** The test of the source: the path, closed with "/", starts with the mount point closed with "/". */
  predicate Covers(mountPoint: string, path: string) { HasPrefix(path + "/", mountPoint + "/") }

  /** What it means: split at "/", the mount point is a component-wise prefix of the path. */
  predicate IsAncestor(mountPoint: string, path: string) { Split(mountPoint, '/') <= Split(path, '/') }

  /** The prefix test means path ancestry, for all strings: "/a/b" covers "/a/b" and "/a/b/c", never "/a/bc". */
  lemma CoversMeansAncestor(m: string, path: string)
    ensures Covers(m, path) <==> IsAncestor(m, path)
  {
    if Covers(m, path) {
      assert m + "/" <= path + "/";
      if |path| == |m| {
        assert path == (path + "/")[..|m|] == (m + "/")[..|m|] == m;
      } else {
        var rest := path[|m| + 1..];
        assert path[..|m| + 1] == (path + "/")[..|m| + 1] == m + "/";
        assert path == m + ['/'] + rest;
        SplitConcat(m, '/', rest);
      }
    }
    if IsAncestor(m, path) {
      var parts, more := Split(m, '/'), Split(path, '/')[|Split(m, '/')|..];
      assert Split(path, '/') == parts + more;
      JoinOfSplit(m, '/');
      JoinOfSplit(path, '/');
      JoinConcat(parts, more, '/');
      if more == [] {
        assert parts + more == parts;
      } else {
        assert path + "/" == (m + "/") + (Join(more, '/') + "/");
      }
    }
  }

  lemma {:induction false} JoinConcat(a: seq<string>, b: seq<string>, c: char)
    requires a != []
    ensures b != [] ==> Join(a + b, c) == Join(a, c) + [c] + Join(b, c)
  {
    if |a| == 1 {
      if b != [] { assert (a + b)[1..] == b; }
    } else {
      assert (a + b)[1..] == a[1..] + b;
      JoinConcat(a[1..], b, c);
    }
  }

  /** Finds a registered mount point above the path, whatever the order in which the map is walked. */
  method IsFlexVolMnt(mount: string, mounts: map<string, string>) returns (r: Option<string>)
    ensures r.Some? <==> exists m :: m in mounts && m != "" && IsAncestor(m, mount)
    ensures r.Some? ==> r.value in mounts && r.value != "" && IsAncestor(r.value, mount)
  {
    var left := mounts.Keys;
    while left != {}
      invariant left <= mounts.Keys
      invariant forall m | m in mounts && m !in left && m != "" :: !IsAncestor(m, mount)
      decreases left
    {
      var m :| m in left;
      left := left - {m};
      CoversMeansAncestor(m, mount);
      if m != "" && Covers(m, mount) { return Some(m); }
    }
    return None;
  }

  // ---------- The registry ----------

  /** What happens to the registry: the three requests that reach it. */
  datatype Event =
    | Add(pod: string, volume: Volume)
    | Del(mountPoint: string)
    | RemovePod(pod: string)

  /** The volume a mount point is registered for after a history. The empty mount point never is. */
  function MountedAt(history: seq<Event>, point: string): Option<string> {
    if history == [] then None
    else
      var earlier := MountedAt(history[..|history| - 1], point);
      match history[|history| - 1]
      case Add(_, v) => if v.mountPoint == point && point != "" && earlier.None? then Some(v.volume) else earlier
      case Del(p) => if p == point then None else earlier
      case RemovePod(_) => earlier
  }

  /** A request is rejected if it adds a mount point that is registered or deletes one that is not. */
  predicate Accepted(history: seq<Event>, e: Event) {
    match e
    case Add(_, v) => v.mountPoint == "" || MountedAt(history, v.mountPoint).None?
    case Del(p) => MountedAt(history, p).Some?
    case RemovePod(_) => true
  }

  /** The volumes accepted for a pod since its last removal, in order. */
  function VolumesFor(history: seq<Event>, pod: string): seq<Volume> {
    if history == [] then []
    else
      var before := history[..|history| - 1];
      match history[|history| - 1]
      case Add(p, v) =>
        if p == pod && Accepted(before, Add(p, v)) then VolumesFor(before, pod) + [v] else VolumesFor(before, pod)
      case Del(_) => VolumesFor(before, pod)
      case RemovePod(p) => if p == pod then [] else VolumesFor(before, pod)
  }

  /** Event i of the history adds the mount point, and no later event deletes it. */
  predicate AddedAndKept(history: seq<Event>, i: nat, point: string) {
    && i < |history| && history[i].Add? && history[i].volume.mountPoint == point
    && forall j | i < j < |history| :: history[j] != Del(point)
  }

  /** Unless the last event deletes the point, what is kept before it is kept after it. */
  lemma KeptBefore(history: seq<Event>, i: nat, point: string)
    requires i < |history| - 1 && history[|history| - 1] != Del(point)
    ensures AddedAndKept(history, i, point) <==> AddedAndKept(history[..|history| - 1], i, point)
  {
    var before := history[..|history| - 1];
    assert forall j | i < j < |before| :: before[j] == history[j];
  }

  /** In terms of the raw requests: a mount point is registered exactly when some request to add it has no later
      request to delete it. */
  lemma {:induction false} RegisteredMeaning(history: seq<Event>, point: string)
    requires point != ""
    ensures MountedAt(history, point).Some? <==> exists i :: AddedAndKept(history, i, point)
  {
    if history != [] {
      var n := |history| - 1;
      var before, last := history[..n], history[n];
      RegisteredMeaning(before, point);
      if last == Del(point) {
        forall i: nat ensures !AddedAndKept(history, i, point) { if i < n { assert history[n] == Del(point); } }
      } else {
        forall i: nat | i < n ensures AddedAndKept(history, i, point) <==> AddedAndKept(before, i, point) {
          KeptBefore(history, i, point);
        }
        if MountedAt(before, point).Some? {
          var i: nat :| AddedAndKept(before, i, point);
          assert AddedAndKept(history, i, point);
        } else if last.Add? && last.volume.mountPoint == point {
          assert AddedAndKept(history, n, point);
        }
      }
    }
  }

  /** ... and the volume it is registered for is that of the first such request. */
  lemma {:induction false} FirstAddWins(history: seq<Event>, i: nat, point: string)
    requires point != "" && AddedAndKept(history, i, point) && forall k: nat | k < i :: !AddedAndKept(history, k, point)
    ensures MountedAt(history, point) == Some(history[i].volume.volume)
  {
    var n := |history| - 1;
    var before := history[..n];
    if i < n {
      assert history[n] != Del(point);
      KeptBefore(history, i, point);
      forall k: nat | k < i ensures !AddedAndKept(before, k, point) { KeptBefore(history, k, point); }
      FirstAddWins(before, i, point);
    } else {
      forall k: nat ensures !AddedAndKept(before, k, point) { if k < n { KeptBefore(history, k, point); } }
      RegisteredMeaning(before, point);
    }
  }

  /** A request to add is rejected exactly when an earlier one for the same non-empty mount point has no delete since,
      whatever its volume; a request to delete exactly when there is none. */
  lemma AcceptedMeaning(history: seq<Event>, e: Event)
    ensures match e
            case Add(_, v) =>
              Accepted(history, e) <==> v.mountPoint == "" || !exists i :: AddedAndKept(history, i, v.mountPoint)
            case Del(p) => Accepted(history, e) <==> p != "" && exists i :: AddedAndKept(history, i, p)
            case RemovePod(_) => Accepted(history, e)
  {
    match e
    case Add(_, v) => if v.mountPoint != "" { RegisteredMeaning(history, v.mountPoint); }
    case Del(p) => if p != "" { RegisteredMeaning(history, p); } else { EmptyNeverRegistered(history); }
    case RemovePod(_) =>
  }

  lemma {:induction false} EmptyNeverRegistered(history: seq<Event>)
    ensures MountedAt(history, "").None?
  {
    if history != [] { EmptyNeverRegistered(history[..|history| - 1]); }
  }

  /** A pod's volumes in terms of the raw requests: after its last removal, exactly the accepted adds for it. */
  lemma {:induction false} VolumesSinceRemoval(history: seq<Event>, pod: string, later: seq<Event>)
    requires forall e | e in later :: e != RemovePod(pod)
    ensures VolumesFor(history + [RemovePod(pod)] + later, pod) == AcceptedAdds(history + [RemovePod(pod)], pod, later)
    decreases |later|
  {
    var h := history + [RemovePod(pod)];
    if later == [] {
      assert h + later == h && h[..|h| - 1] == history;
    } else {
      var n := |later| - 1;
      assert (h + later)[..|h + later| - 1] == h + later[..n];
      assert forall e | e in later[..n] :: e in later;
      assert later[n] in later;
      VolumesSinceRemoval(history, pod, later[..n]);
    }
  }

  /** The volumes of the adds for a pod among later that are accepted where they stand. */
  function AcceptedAdds(history: seq<Event>, pod: string, later: seq<Event>): seq<Volume>
    decreases |later|
  {
    if later == [] then []
    else
      var n := |later| - 1;
      var e := later[n];
      AcceptedAdds(history, pod, later[..n])
      + if e.Add? && e.pod == pod && Accepted(history + later[..n], e) then [e.volume] else []
  }

  /** The mount maps of the manager. */
  class MountRegistry {
    var mountMap: map<string, string>
    var volumeMap: map<string, seq<Volume>>
    ghost var history: seq<Event>

    /** The maps are what the history says: refinement. */
    ghost predicate Valid()
      reads this
    {
      && (forall p :: p in mountMap <==> MountedAt(history, p).Some?)
      && (forall p | p in mountMap :: MountedAt(history, p) == Some(mountMap[p]))
      && (forall u :: Volumes(u) == VolumesFor(history, u))
    }

    /** volumeMap[pod], nil for a pod without an entry. */
    function Volumes(pod: string): seq<Volume>
      reads this
    {
      if pod in volumeMap then volumeMap[pod] else []
    }

    constructor ()
      ensures Valid() && history == []
    {
      mountMap, volumeMap, history := map[], map[], [];
    }

    method AddMount(pod: string, vol: Volume) returns (ok: bool)
      requires Valid()
      modifies this
      ensures Valid() && history == old(history) + [Add(pod, vol)]
      ensures ok == Accepted(old(history), Add(pod, vol))
      ensures ok <==> vol.mountPoint == "" || vol.mountPoint !in old(mountMap)
      ensures !ok ==> mountMap == old(mountMap) && volumeMap == old(volumeMap)
      ensures ok ==> mountMap == (if vol.mountPoint != "" then old(mountMap)[vol.mountPoint := vol.volume]
                                  else old(mountMap))
      ensures ok ==> volumeMap == old(volumeMap)[pod := old(Volumes(pod)) + [vol]]
    {
      ghost var before, e := history, Add(pod, vol);
      assert (before + [e])[..|before + [e]| - 1] == before;
      history := history + [e];
      if vol.mountPoint != "" {
        if vol.mountPoint in mountMap { return false; }
        mountMap := mountMap[vol.mountPoint := vol.volume];
      }
      volumeMap := volumeMap[pod := Volumes(pod) + [vol]];
      return true;
    }

    method DelMount(point: string) returns (ok: bool)
      requires Valid()
      modifies this
      ensures Valid() && history == old(history) + [Del(point)]
      ensures ok == Accepted(old(history), Del(point))
      ensures ok <==> point in old(mountMap)
      ensures volumeMap == old(volumeMap) && mountMap == old(mountMap) - {point}
    {
      ghost var before, e := history, Del(point);
      assert (before + [e])[..|before + [e]| - 1] == before;
      history := history + [e];
      if point !in mountMap { return false; }
      mountMap := mountMap - {point};
      return true;
    }

    /** delete(m.volumeMap, uuid) at the end of removePodSandbox. The mount points stay. */
    method RemoveVolumes(pod: string)
      requires Valid()
      modifies this
      ensures Valid() && history == old(history) + [RemovePod(pod)]
      ensures mountMap == old(mountMap) && volumeMap == old(volumeMap) - {pod}
    {
      ghost var before, e := history, RemovePod(pod);
      assert (before + [e])[..|before + [e]| - 1] == before;
      history := history + [e];
      volumeMap := volumeMap - {pod};
    }
  }
}
