/** The names and ids containers are found again by: docker's container name label, printed and parsed,
    and the "podId:containerId" ids of the CRI calls. */
module ContainerNames {
  import opened Wrappers
  import opened Strings

  type uint32 = n: nat | n < TWO_TO_THE_32

  datatype SandboxMetadata = SandboxMetadata(name: string, namespace: string, uid: string)
  datatype ContainerMetadata = ContainerMetadata(name: string, attempt: uint32)

  const NO_SANDBOX := SandboxMetadata("", "", "")
  const NO_CONTAINER := ContainerMetadata("", 0)

  /** None is a nil config or a config without metadata. */
  function OrEmpty(s: Option<SandboxMetadata>): SandboxMetadata {
    if s.Some? then s.value else NO_SANDBOX
  }

  function OrNone(c: Option<ContainerMetadata>): ContainerMetadata {
    if c.Some? then c.value else NO_CONTAINER
  }

  function NameParts(s: SandboxMetadata, c: ContainerMetadata): seq<string> {
    ["kube", c.name, s.name, s.namespace, s.uid, Itoa(c.attempt)]
  }

  function MakeContainerName(s: Option<SandboxMetadata>, c: Option<ContainerMetadata>): string {
    Join(NameParts(OrEmpty(s), OrNone(c)), '_')
  }

  function ParseContainerName(name: string): Result<ContainerMetadata> {
    var parts := Split(name, '_');
    if |parts| != 6 then Err
    else if parts[0] != "kube" then Err
    else match ParseUint32(parts[5])
      case Err => Err
      case Ok(n) => ParsedFits(parts[5]); Ok(ContainerMetadata(parts[1], n))
  }

  lemma ParsedFits(s: string)
    ensures ParseUint32(s).Ok? ==> ParseUint32(s).value < TWO_TO_THE_32
  {
  }

  /** None of the four embedded names holds the delimiter. */
  predicate Printable(s: SandboxMetadata, c: ContainerMetadata) {
    '_' !in c.name && '_' !in s.name && '_' !in s.namespace && '_' !in s.uid
  }

  /** A made name parses back to the container's name and attempt exactly when no embedded name holds "_". */
  lemma NameRoundTrip(s: Option<SandboxMetadata>, c: Option<ContainerMetadata>)
    ensures ParseContainerName(MakeContainerName(s, c))
            == if Printable(OrEmpty(s), OrNone(c)) then Ok(OrNone(c)) else Err
  {
    var sandbox, cont := OrEmpty(s), OrNone(c);
    var parts := NameParts(sandbox, cont);
    SplitOfJoin(parts, '_');
    ParseOfItoa(cont.attempt);
    ItoaHasNo(cont.attempt, '_');
    assert '_' !in "kube";
    assert parts[0] in parts && parts[1] in parts && parts[2] in parts && parts[3] in parts && parts[4] in parts
           && parts[5] in parts;
  }

  /** A made name spelled out. */
  lemma MadeName(s: Option<SandboxMetadata>, c: Option<ContainerMetadata>)
    ensures var sandbox, cont := OrEmpty(s), OrNone(c);
            MakeContainerName(s, c) == "kube" + ['_'] + (cont.name + ['_'] + (sandbox.name + ['_'] + (sandbox.namespace
                                       + ['_'] + (sandbox.uid + ['_'] + Itoa(cont.attempt)))))
  {
    var sandbox, cont := OrEmpty(s), OrNone(c);
    var attempt := Itoa(cont.attempt);
    JoinCons(sandbox.uid, [attempt]);
    JoinCons(sandbox.namespace, [sandbox.uid, attempt]);
    JoinCons(sandbox.name, [sandbox.namespace, sandbox.uid, attempt]);
    JoinCons(cont.name, [sandbox.name, sandbox.namespace, sandbox.uid, attempt]);
    JoinCons("kube", [cont.name, sandbox.name, sandbox.namespace, sandbox.uid, attempt]);
  }

  lemma JoinCons(first: string, rest: seq<string>)
    requires rest != []
    ensures Join([first] + rest, '_') == first + ['_'] + Join(rest, '_')
  {
    assert ([first] + rest)[1..] == rest;
  }

  /** The parser accepts nothing but names of the printed form: every accepted name is "kube", the name it reports,
      three more fields and a decimal that reads as the attempt it reports. */
  lemma ParsedNamesHaveTheForm(name: string, m: ContainerMetadata)
    ensures ParseContainerName(name) == Ok(m) <==>
            exists p, ns, uid, digits ::
              && name == Join(["kube", m.name, p, ns, uid, digits], '_')
              && '_' !in m.name && '_' !in p && '_' !in ns && '_' !in uid
              && ParseUint32(digits) == Ok(m.attempt)
  {
    var parts := Split(name, '_');
    if ParseContainerName(name) == Ok(m) {
      JoinOfSplit(name, '_');
      SplitOfJoin(parts, '_');
      assert parts == ["kube", m.name, parts[2], parts[3], parts[4], parts[5]];
      assert parts[1] in parts && parts[2] in parts && parts[3] in parts && parts[4] in parts;
      assert name == Join(["kube", m.name, parts[2], parts[3], parts[4], parts[5]], '_');
    }
    forall p, ns, uid, digits |
      && name == Join(["kube", m.name, p, ns, uid, digits], '_')
      && '_' !in m.name && '_' !in p && '_' !in ns && '_' !in uid
      && ParseUint32(digits) == Ok(m.attempt)
      ensures ParseContainerName(name) == Ok(m)
    {
      var made := ["kube", m.name, p, ns, uid, digits];
      SplitOfJoin(made, '_');
      assert forall i | 0 <= i < 6 :: '_' !in made[i];
    }
  }

  // ---------- Container ids ----------

  function ContainerId(podId: string, contId: string): string { podId + ":" + contId }

  function ParseContainer(c: string): Result<(string, string)> {
    var splits := Split(c, ':');
    if |splits| != 2 then Err else Ok((splits[0], splits[1]))
  }

  /** An id leads back to its pod and container exactly when neither part holds ":"; it never leads elsewhere. */
  lemma IdRoundTrip(podId: string, contId: string)
    ensures ParseContainer(ContainerId(podId, contId))
            == if ':' !in podId && ':' !in contId then Ok((podId, contId)) else Err
  {
    var parts := [podId, contId];
    assert parts[1..] == [contId];
    assert Join(parts, ':') == ContainerId(podId, contId);
    SplitOfJoin(parts, ':');
    assert parts[0] in parts && parts[1] in parts;
  }

  /** Whatever parses is an id of the pod and container it parses to. */
  lemma ParsedIsId(c: string)
    requires ParseContainer(c).Ok?
    ensures var (podId, contId) := ParseContainer(c).value;
            c == ContainerId(podId, contId) && ':' !in podId && ':' !in contId
  {
    JoinOfSplit(c, ':');
    var splits := Split(c, ':');
    assert splits == [splits[0], splits[1]];
    assert splits[1..] == [splits[1]];
    IdRoundTrip(splits[0], splits[1]);
  }
}
