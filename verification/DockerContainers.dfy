/** The docker container provider: what CreateContainer stores with the docker daemon, what ListContainers makes
    of the daemon's records, and that the two agree. */
module DockerContainers {
  import opened Wrappers
  import opened Strings
  import opened ContainerNames
  import opened Labels

  datatype Request = Request(podId: string, sandbox: Option<SandboxMetadata>, metadata: Option<ContainerMetadata>,
                             labels: StringMap, annotations: StringMap)

  /** A record of the docker daemon. */
  datatype Record = Record(id: string, status: string, image: string, imageId: string, labels: StringMap)

  datatype ContainerState = Created | Running | Exited | Unknown

  /** A container as the CRI reports it. */
  datatype Container = Container(id: string, metadata: ContainerMetadata, image: string, imageRef: string,
                                 state: ContainerState, labels: StringMap, annotations: StringMap)

  const NAME_LABEL := "infra.name-label"
  const SANDBOX_LABEL := "infra.sandbox-label"

  function ToState(status: string): ContainerState {
    if HasPrefix(status, "Up") then Running
    else if HasPrefix(status, "Exited") then Exited
    else if HasPrefix(status, "Created") then Created
    else Unknown
  }

  /** The two labels the provider adds. */
  function WithInfra(labels: StringMap, req: Request): StringMap {
    labels[NAME_LABEL := MakeContainerName(req.sandbox, req.metadata)][SANDBOX_LABEL := req.podId]
  }

  /** The labels a container is created with. */
  function StoredLabels(req: Request): StringMap {
    WithInfra(Merged(req.labels, req.annotations), req)
  }

  /** ToRuntimeAPIContainer behind the two label lookups: what a record is listed as, if at all. */
  function Listing(c: Record): Option<Container> {
    if NAME_LABEL !in c.labels || SANDBOX_LABEL !in c.labels then None
    else match ParseContainerName(c.labels[NAME_LABEL])
      case Err => None
      case Ok(m) => Some(Container(ContainerId(c.labels[SANDBOX_LABEL], c.id), m, c.image, c.imageId, ToState(c.status),
                                   PlainLabels(c.labels), Annotations(c.labels)))
  }

  function Shown(listing: Option<Container>): seq<Container> { if listing.Some? then [listing.value] else [] }

  function Listed(cs: seq<Record>): seq<Container> {
    if cs == [] then [] else Shown(Listing(cs[0])) + Listed(cs[1..])
  }

  lemma {:induction false} ListedConcat(a: seq<Record>, b: seq<Record>)
    ensures Listed(a + b) == Listed(a) + Listed(b)
  {
    if a == [] {
      assert a + b == b;
    } else {
      assert (a + b)[1..] == a[1..] + b && (a + b)[0] == a[0];
      ListedConcat(a[1..], b);
      Regroup(Shown(Listing(a[0])), Listed(a[1..]), Listed(b));
    }
  }

  lemma Regroup<T>(x: seq<T>, y: seq<T>, z: seq<T>)
    ensures x + (y + z) == x + y + z
  {
  }

  /** The two halves of the provider. dockId is the daemon's answer to the create, None when the shared paths,
      the image pull or the create itself fail. */
  method CreateContainer(req: Request, dockId: Option<string>) returns (r: Result<string>, labels: StringMap)
    ensures r == if dockId.Some? then Ok(ContainerId(req.podId, dockId.value)) else Err
    ensures labels == StoredLabels(req)
  {
    labels := MakeLabels(req.labels, req.annotations);
    labels := labels[NAME_LABEL := MakeContainerName(req.sandbox, req.metadata)];
    labels := labels[SANDBOX_LABEL := req.podId];
    match dockId {
      case None => r := Err;
      case Some(id) => r := Ok(ContainerId(req.podId, id));
    }
  }

  /** filterId is the filter's container id ("" for no filter), answer what the daemon returns for the
      docker-side filter, if it returns at all. */
  method ListContainers(filterId: string, answer: Option<seq<Record>>) returns (r: Result<seq<Container>>)
    ensures r.Err? <==> (filterId != "" && ParseContainer(filterId).Err?) || answer.None?
    ensures r.Ok? ==> r.value == Listed(answer.value)
  {
    if filterId != "" && ParseContainer(filterId).Err? { return Err; }
    if answer.None? { return Err; }
    var containers := answer.value;
    var result := [];
    for i := 0 to |containers|
      invariant result == Listed(containers[..i])
    {
      var c := containers[i];
      assert containers[..i + 1] == containers[..i] + [c];
      ListedConcat(containers[..i], [c]);
      assert [c][1..] == [];
      if NAME_LABEL in c.labels && SANDBOX_LABEL in c.labels {
        var converted := ToRuntimeAPIContainer(c.labels[SANDBOX_LABEL], c.labels[NAME_LABEL], c);
        if converted.Ok? { result := result + [converted.value]; }
      }
    }
    assert containers[..|containers|] == containers;
    return Ok(result);
  }

  method ToRuntimeAPIContainer(podId: string, name: string, c: Record) returns (r: Result<Container>)
    ensures match ParseContainerName(name)
            case Err => r == Err
            case Ok(m) => r == Ok(Container(ContainerId(podId, c.id), m, c.image, c.imageId, ToState(c.status),
                                            PlainLabels(c.labels), Annotations(c.labels)))
  {
    var metadata := ParseContainerName(name);
    if metadata.Err? { return Err; }
    var labels, annotations := ExtractLabels(c.labels);
    return Ok(Container(ContainerId(podId, c.id), metadata.value, c.image, c.imageId, ToState(c.status), labels,
                        annotations));
  }

  // ---------- What was created is what is listed ----------

  /** The requested labels plus the two the provider adds. */
  function ExpectedLabels(req: Request): StringMap {
    WithInfra(req.labels, req)
  }

  lemma StoredParts(req: Request)
    ensures PlainLabels(StoredLabels(req))
            == WithInfra(PlainLabels(Merged(req.labels, req.annotations)), req)
    ensures Annotations(StoredLabels(req)) == Annotations(Merged(req.labels, req.annotations))
  {
    var m := Merged(req.labels, req.annotations);
    assert !IsAnnotation(NAME_LABEL) && !IsAnnotation(SANDBOX_LABEL) by {
      assert NAME_LABEL[0] == 'i' && SANDBOX_LABEL[0] == 'i' && ANNOTATION_PREFIX[0] == 'a';
    }
    ExtractOne(m, NAME_LABEL, MakeContainerName(req.sandbox, req.metadata));
    ExtractOne(m[NAME_LABEL := MakeContainerName(req.sandbox, req.metadata)], SANDBOX_LABEL, req.podId);
  }

  /** Labels and annotations come back as requested, the two infra labels added, exactly when no requested label
      key starts with "annotation.". */
  lemma LabelsComeBack(req: Request)
    ensures PlainLabels(StoredLabels(req)) == ExpectedLabels(req) && Annotations(StoredLabels(req)) == req.annotations
            <==> forall k | k in req.labels :: !IsAnnotation(k)
  {
    StoredParts(req);
    ExtractOfMerge(req.labels, req.annotations);
    if exists k :: k in req.labels && IsAnnotation(k) {
      var k :| k in req.labels && IsAnnotation(k);
      assert k !in PlainLabels(StoredLabels(req));
      assert k in ExpectedLabels(req);
    }
  }

  lemma StoredNames(req: Request)
    ensures var m := StoredLabels(req);
            && NAME_LABEL in m && m[NAME_LABEL] == MakeContainerName(req.sandbox, req.metadata)
            && SANDBOX_LABEL in m && m[SANDBOX_LABEL] == req.podId
  {
    assert |NAME_LABEL| != |SANDBOX_LABEL|;
  }

  /** How a record that has both infra labels is listed. */
  lemma ListingOf(c: Record, name: string, podId: string)
    requires NAME_LABEL in c.labels && c.labels[NAME_LABEL] == name && SANDBOX_LABEL in c.labels
             && c.labels[SANDBOX_LABEL] == podId
    ensures Listing(c).Some? <==> ParseContainerName(name).Ok?
    ensures Listing(c).Some? ==>
              var l := Listing(c).value;
              && l.id == ContainerId(podId, c.id) && Ok(l.metadata) == ParseContainerName(name)
              && l.labels == PlainLabels(c.labels) && l.annotations == Annotations(c.labels)
  {
  }

  /** What a listed record shows besides: its image and image id, and the state its status begins with. */
  lemma ListedState(c: Record)
    requires Listing(c).Some?
    ensures var l := Listing(c).value;
            && l.image == c.image && l.imageRef == c.imageId
            && (l.state == Running <==> exists rest :: c.status == "Up" + rest)
            && (l.state == Exited <==> exists rest :: c.status == "Exited" + rest)
            && (l.state == Created <==> exists rest :: c.status == "Created" + rest)
  {
    StartsWith("Up", c.status);
    StartsWith("Exited", c.status);
    StartsWith("Created", c.status);
    assert "Up"[0] == 'U' && "Exited"[0] == 'E' && "Created"[0] == 'C';
    assert c.status != "" ==> c.status[..1] == [c.status[0]];
  }

  lemma StartsWith(prefix: string, s: string)
    ensures (exists rest :: s == prefix + rest) <==> prefix <= s
  {
    if prefix <= s { assert s == prefix + s[|prefix|..]; }
  }

  /** What the daemon holds after the create: some record, with the labels it was given. */
  function Stored(req: Request, c: Record): Record { c.(labels := StoredLabels(req)) }

  /** A created container is listed exactly when no embedded name holds "_". */
  lemma CreatedIsListed(req: Request, c: Record)
    ensures Listing(Stored(req, c)).Some? <==> Printable(OrEmpty(req.sandbox), OrNone(req.metadata))
  {
    NameRoundTrip(req.sandbox, req.metadata);
    StoredNames(req);
    ListingOf(Stored(req, c), MakeContainerName(req.sandbox, req.metadata), req.podId);
  }

  /** Under the id its creation returned, with the requested name and attempt. */
  lemma ListedAsCreated(req: Request, c: Record)
    requires Listing(Stored(req, c)).Some?
    ensures var l := Listing(Stored(req, c)).value;
            l.id == ContainerId(req.podId, c.id) && l.metadata == OrNone(req.metadata)
  {
    NameRoundTrip(req.sandbox, req.metadata);
    StoredNames(req);
    ListingOf(Stored(req, c), MakeContainerName(req.sandbox, req.metadata), req.podId);
  }

  /** And with labels and annotations as LabelsComeBack says. */
  lemma CreateThenListing(req: Request, c: Record)
    ensures var listing := Listing(Stored(req, c));
            && (listing.Some? <==> Printable(OrEmpty(req.sandbox), OrNone(req.metadata)))
            && (listing.Some? ==>
                  && listing.value.id == ContainerId(req.podId, c.id)
                  && listing.value.metadata == OrNone(req.metadata)
                  && (listing.value.labels == ExpectedLabels(req) && listing.value.annotations == req.annotations
                      <==> forall k | k in req.labels :: !IsAnnotation(k)))
  {
    CreatedIsListed(req, c);
    if Listing(Stored(req, c)).Some? {
      ListedAsCreated(req, c);
      LabelsComeBack(req);
    }
  }

  /** Among whatever other records the daemon holds, the list shows a record (such as that of a created container)
      once, in its place, or not at all, and exactly the other listings around it. */
  lemma ListedAmong(before: seq<Record>, r: Record, after: seq<Record>)
    ensures Listed(before + [r] + after)
            == Listed(before) + (if Listing(r).Some? then [Listing(r).value] else []) + Listed(after)
  {
    ListedConcat(before + [r], after);
    ListedConcat(before, [r]);
    assert [r][1..] == [];
  }

  /** The listed id leads StartContainer, StopContainer and the others back to the pod and the docker id,
      when the pod id holds no ":" (docker ids hold none). */
  lemma ListedIdRoutes(req: Request, c: Record)
    requires Listing(Stored(req, c)).Some?
    ensures ParseContainer(Listing(Stored(req, c)).value.id)
            == if ':' !in req.podId && ':' !in c.id then Ok((req.podId, c.id)) else Err
  {
    ListedAsCreated(req, c);
    IdRoundTrip(req.podId, c.id);
  }
}
