/** The fake container provider: the containers of one pod, in a map from their ids. It also stands for the
    container side of an image pod. */
module FakeContainers {
  import opened Wrappers
  import opened Strings
  import opened ContainerNames
  import opened Labels

  datatype State = Created | Running | Exited

  datatype Spec = Spec(metadata: ContainerMetadata, image: string, labels: StringMap, annotations: StringMap)

  /** A container as the CRI reports it. */
  datatype Info = Info(id: string, spec: Spec, state: State)

  datatype Status = Status(info: Info, startedAt: int, finishedAt: int, reason: string)

  /** The ids in a list. */
  function IdSet(containers: seq<Info>): set<string> { set c | c in containers :: c.id }

  lemma IdSetStep(containers: seq<Info>, i: nat)
    requires i < |containers|
    ensures IdSet(containers[..i + 1]) == IdSet(containers[..i]) + {containers[i].id}
  {
    assert containers[..i + 1] == containers[..i] + [containers[i]];
  }

  class Container {
    const id: string
    const podId: string
    const spec: Spec
    var state: State
    var startedAt: int
    var finishedAt: int

    constructor (id: string, podId: string, spec: Spec)
      ensures this.id == id && this.podId == podId && this.spec == spec && state == Created
    {
      this.id, this.podId, this.spec := id, podId, spec;
      state, startedAt, finishedAt := Created, 0, 0;
    }

    method Start(now: int)
      modifies this
      ensures state == Running && startedAt == now && finishedAt == old(finishedAt)
    {
      startedAt := now;
      state := Running;
    }

    method Finished(now: int)
      modifies this
      ensures state == Exited && finishedAt == now && startedAt == old(startedAt)
    {
      finishedAt := now;
      state := Exited;
    }

    function ToKubeContainer(): Info
      reads this
    {
      Info(id, spec, state)
    }

    function ToKubeStatus(): Status
      reads this
    {
      Status(ToKubeContainer(), startedAt, finishedAt, if state == Exited then "Stopped" else "")
    }
  }

  class FakeContainerProvider {
    var contMap: map<string, Container>
    ghost const owner: string  // the id of the pod whose client it backs

    /** Every key is the id of its container, made of the container's pod and name. */
    ghost predicate Valid()
      reads this
    {
      forall id | id in contMap ::
        contMap[id].id == id && id == ContainerId(contMap[id].podId, contMap[id].spec.metadata.name)
    }

    ghost predicate OwnedBy(podId: string)
      reads this
    {
      Valid() && forall id | id in contMap :: contMap[id].podId == podId
    }

    /** What the map holds, by value. */
    ghost function Infos(): map<string, Info>
      reads this, contMap.Values
    {
      map id | id in contMap :: contMap[id].ToKubeContainer()
    }

    constructor (ghost owner: string)
      ensures Valid() && contMap == map[] && this.owner == owner
    {
      contMap := map[];
      this.owner := owner;
    }

    /** A second container of the same name takes the place of the first. */
    method CreateContainer(podId: string, spec: Spec) returns (id: string)
      requires Valid()
      modifies this
      ensures Valid() && id == ContainerId(podId, spec.metadata.name)
      ensures id in contMap && fresh(contMap[id]) && contMap == old(contMap)[id := contMap[id]]
              && contMap[id].podId == podId
      ensures Infos() == old(Infos())[id := Info(id, spec, Created)]
      ensures old(OwnedBy(podId)) ==> OwnedBy(podId)
    {
      id := ContainerId(podId, spec.metadata.name);
      var c := new Container(id, podId, spec);
      contMap := contMap[id := c];
    }

    method StartContainer(id: string, now: int) returns (ok: bool)
      requires Valid()
      modifies contMap.Values
      ensures Valid() && contMap == old(contMap) && ok == (id in contMap)
      ensures Infos() == if ok then old(Infos())[id := old(Infos())[id].(state := Running)] else old(Infos())
    {
      if id !in contMap { return false; }
      contMap[id].Start(now);
      return true;
    }

    method StopContainer(id: string, now: int) returns (ok: bool)
      requires Valid()
      modifies contMap.Values
      ensures Valid() && contMap == old(contMap) && ok == (id in contMap)
      ensures Infos() == if ok then old(Infos())[id := old(Infos())[id].(state := Exited)] else old(Infos())
    {
      if id !in contMap { return false; }
      contMap[id].Finished(now);
      return true;
    }

    method RemoveContainer(id: string) returns (ok: bool)
      requires Valid()
      modifies this
      ensures Valid() && ok == (id in old(contMap)) && contMap == old(contMap) - {id}
      ensures Infos() == old(Infos()) - {id}
    {
      if id !in contMap { return false; }
      contMap := contMap - {id};
      return true;
    }

    /** The unfiltered list: every container of the map once, in any order. */
    method ListContainers() returns (containers: seq<Info>)
      requires Valid()
      ensures forall c :: c in containers <==> c.id in contMap && c == contMap[c.id].ToKubeContainer()
      ensures forall i, j | 0 <= i < j < |containers| :: containers[i].id != containers[j].id
      ensures IdSet(containers) == contMap.Keys && forall i | 0 <= i < |containers| :: containers[i].id in contMap
    {
      containers := [];
      var left := contMap.Keys;
      while left != {}
        invariant left <= contMap.Keys
        invariant forall c :: c in containers <==>
                              c.id in contMap && c.id !in left && c == contMap[c.id].ToKubeContainer()
        invariant forall i, j | 0 <= i < j < |containers| :: containers[i].id != containers[j].id
        decreases left
      {
        var id :| id in left;
        assert forall i | 0 <= i < |containers| :: containers[i] in containers;
        containers := containers + [contMap[id].ToKubeContainer()];
        left := left - {id};
      }
      assert forall i | 0 <= i < |containers| :: containers[i] in containers;
      forall id | id in contMap ensures id in IdSet(containers) { assert contMap[id].ToKubeContainer() in containers; }
    }

    method ContainerStatus(id: string) returns (r: Result<Status>)
      requires Valid()
      ensures r == if id in contMap then Ok(contMap[id].ToKubeStatus()) else Err
      ensures r.Ok? ==>
                var c := contMap[id];
                && r.value.info == Info(id, c.spec, c.state) && r.value.startedAt == c.startedAt
                && r.value.finishedAt == c.finishedAt && r.value.reason == if c.state == Exited then "Stopped" else ""
    {
      if id !in contMap { return Err; }
      return Ok(contMap[id].ToKubeStatus());
    }
  }
}
