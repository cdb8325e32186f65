/** A worker pod's identity and storage, as the operator writes, checks and repairs them. */
module WorkerPods {
  import opened Names
  import opened NodeSets
  import opened Options
  import opened Sets

  datatype NodeSet = NodeSet(name: string, ns: string, mode: ScalingMode, padding: nat, templates: seq<string>)

  datatype Label = PodName | PodIndex | PodHostname | Scaling | OtherLabel(key: string)

  datatype Source = Claim(claimName: string) | Other(id: nat)

  datatype Volume = Volume(name: string, source: Source)

  function ModeName(mode: ScalingMode): string {
    if mode == StatefulSet then "StatefulSet" else "DaemonSet"
  }

  function Get(labels: map<Label, string>, l: Label): string {
    if l in labels then labels[l] else ""
  }

  function TrimDash(s: string): string {
    if s != "" && s[|s| - 1] == '-' then s[..|s| - 1] else s
  }

  // ---- Claims ----

  /** What a pod's claims end in. */
  function ClaimSuffix(nodeSet: NodeSet, podName: string, labels: map<Label, string>): string {
    if nodeSet.mode == StatefulSet then PaddedOrdinal(nodeSet.padding, ParentAndOrdinal(podName).1)
    else Get(labels, PodHostname)
  }

  function ClaimFor(nodeSet: NodeSet, template: string, suffix: string): string {
    ClaimName(template, nodeSet.name, suffix)
  }

  /** GetPersistentVolumeClaims: template name to claim name. */
  method PersistentVolumeClaims(nodeSet: NodeSet, suffix: string) returns (claims: map<string, string>)
    ensures claims == Claims(nodeSet, suffix)
  {
    claims := map[];
    for i := 0 to |nodeSet.templates|
      invariant claims == map t | t in nodeSet.templates[..i] :: ClaimFor(nodeSet, t, suffix)
    {
      var t := nodeSet.templates[i];
      assert nodeSet.templates[..i + 1] == nodeSet.templates[..i] + [t];
      claims := claims[t := ClaimFor(nodeSet, t, suffix)];
    }
    assert nodeSet.templates[..|nodeSet.templates|] == nodeSet.templates;
  }

  function Claims(nodeSet: NodeSet, suffix: string): map<string, string> {
    map t | t in nodeSet.templates :: ClaimFor(nodeSet, t, suffix)
  }

  /** Pods of one NodeSet and different ordinals have different claims for every template. */
  lemma OrdinalPodsOwnClaims(nodeSet: NodeSet, n: nat, m: nat, t: string, u: string, labels: map<Label, string>)
    requires nodeSet.mode == StatefulSet && n < MAX_ORDINAL && m < MAX_ORDINAL && n != m
    ensures var a := ClaimSuffix(nodeSet, OrdinalPodName(nodeSet.name, nodeSet.padding, n), labels);
            var b := ClaimSuffix(nodeSet, OrdinalPodName(nodeSet.name, nodeSet.padding, m), labels);
            ClaimFor(nodeSet, t, a) != ClaimFor(nodeSet, u, b)
  {
    ParsedName(nodeSet.name, nodeSet.padding, n);
    ParsedName(nodeSet.name, nodeSet.padding, m);
    if ClaimName(t, nodeSet.name, PaddedOrdinal(nodeSet.padding, n))
       == ClaimName(u, nodeSet.name, PaddedOrdinal(nodeSet.padding, m)) {
      ClaimNamesInjective(t, u, nodeSet.name, nodeSet.padding, n, m);
    }
  }

  /** Daemon pods of different hostname labels have different claims for the same template. */
  lemma DaemonPodsOwnClaims(
    nodeSet: NodeSet, t: string, podName: string, labels: map<Label, string>, other: map<Label, string>)
    requires nodeSet.mode == DaemonSet && Get(labels, PodHostname) != Get(other, PodHostname)
    ensures ClaimFor(nodeSet, t, ClaimSuffix(nodeSet, podName, labels))
         != ClaimFor(nodeSet, t, ClaimSuffix(nodeSet, podName, other))
  {
    var k := |t| + 1 + |nodeSet.name| + 1;
    var a, b := ClaimSuffix(nodeSet, podName, labels), ClaimSuffix(nodeSet, podName, other);
    assert ClaimName(t, nodeSet.name, a)[k..] == a && ClaimName(t, nodeSet.name, b)[k..] == b;
  }

  /** A generated name's stem is the NodeSet's. */
  lemma GenerateNameTrims(name: string)
    ensures TrimDash(name + "-") == name
  {
    assert (name + "-")[..|name|] == name;
  }

  // ---- Volumes ----

  function ClaimVolumes(order: seq<string>, claims: map<string, string>): (r: seq<Volume>)
    requires forall t :: t in order ==> t in claims
    ensures |r| == |order| && forall i :: 0 <= i < |r| ==> r[i] == Volume(order[i], Claim(claims[order[i]]))
  {
    if order == [] then [] else
      ClaimVolumes(order[..|order| - 1], claims)
      + [Volume(order[|order| - 1], Claim(claims[order[|order| - 1]]))]
  }

  /** The volumes no claim names, in order. */
  function Unclaimed(volumes: seq<Volume>, claims: map<string, string>): seq<Volume> {
    if volumes == [] then [] else
      Unclaimed(volumes[..|volumes| - 1], claims)
      + (if volumes[|volumes| - 1].name in claims then [] else [volumes[|volumes| - 1]])
  }

  lemma {:induction false} UnclaimedMembers(volumes: seq<Volume>, claims: map<string, string>)
    ensures forall v :: v in Unclaimed(volumes, claims) <==> v in volumes && v.name !in claims
  {
    if volumes != [] {
      var n := |volumes| - 1;
      UnclaimedMembers(volumes[..n], claims);
      assert volumes == volumes[..n] + [volumes[n]];
    }
  }

  /** An order in which Go may range over the claims. */
  ghost predicate IsRange(order: seq<string>, claims: map<string, string>) {
    multiset(order) == multiset(claims.Keys)
  }

  lemma RangeFacts(order: seq<string>, claims: map<string, string>)
    requires IsRange(order, claims)
    ensures forall t :: t in order <==> t in claims
    ensures forall i, j :: 0 <= i < j < |order| ==> order[i] != order[j]
  {
    forall t ensures t in order <==> t in claims {
      assert t in order <==> t in multiset(order);
    }
    forall i, j | 0 <= i < j < |order| ensures order[i] != order[j] {
      assert order == order[..j] + order[j..];
      assert multiset(order) == multiset(order[..j]) + multiset(order[j..]);
      assert order[i] in order[..j] && order[j] in order[j..];
      assert multiset(order)[order[j]] == 1;
    }
  }

  ghost function Repaired(order: seq<string>, claims: map<string, string>, volumes: seq<Volume>): seq<Volume>
    requires forall t :: t in order ==> t in claims
  {
    ClaimVolumes(order, claims) + Unclaimed(volumes, claims)
  }

  /** The volume a by-name map ends up with: the last of that name. */
  function LastNamed(volumes: seq<Volume>, name: string): (r: Option<Volume>)
    ensures r.Some? ==> r.value in volumes && r.value.name == name
    ensures r.None? ==> forall v :: v in volumes ==> v.name != name
  {
    if volumes == [] then None
    else if volumes[|volumes| - 1].name == name then Some(volumes[|volumes| - 1])
    else LastNamed(volumes[..|volumes| - 1], name)
  }

  ghost predicate StorageMatches(nodeSet: NodeSet, podName: string, labels: map<Label, string>, volumes: seq<Volume>) {
    && (nodeSet.mode == StatefulSet ==> ParentAndOrdinal(podName).1 >= 0)
    && forall t :: t in nodeSet.templates ==>
         MountsClaim(volumes, t, ClaimFor(nodeSet, t, ClaimSuffix(nodeSet, podName, labels)))
  }

  predicate MountsClaim(volumes: seq<Volume>, template: string, claim: string) {
    var v := LastNamed(volumes, template);
    v.Some? && v.value.source == Claim(claim)
  }

  /** A template's name is mounted from its claim and from nothing else. */
  lemma RepairedMounts(order: seq<string>, claims: map<string, string>, volumes: seq<Volume>, t: string)
    requires IsRange(order, claims) && t in claims
    ensures (forall t :: t in order ==> t in claims) && MountsClaim(Repaired(order, claims, volumes), t, claims[t])
  {
    RangeFacts(order, claims);
    UnclaimedMembers(volumes, claims);
    var after := Repaired(order, claims, volumes);
    var k :| 0 <= k < |order| && order[k] == t;
    assert after[k] == Volume(t, Claim(claims[t]));
    assert after[k] in after;
    forall v | v in after && v.name == t ensures v == after[k] {
      assert v !in Unclaimed(volumes, claims);
      var i :| 0 <= i < |after| && after[i] == v;
      assert i < |order| ==> order[i] == t;
      assert i >= |order| ==> v in Unclaimed(volumes, claims);
    }
  }

  lemma {:induction false} UnclaimedConcat(a: seq<Volume>, b: seq<Volume>, claims: map<string, string>)
    ensures Unclaimed(a + b, claims) == Unclaimed(a, claims) + Unclaimed(b, claims)
  {
    if b == [] {
      assert a + b == a;
    } else {
      var n := |b| - 1;
      UnclaimedConcat(a, b[..n], claims);
      assert b == b[..n] + [b[n]] && a + b == (a + b[..n]) + [b[n]];
      UnclaimedAppend(b[..n], b[n], claims);
      UnclaimedAppend(a + b[..n], b[n], claims);
    }
  }

  lemma UnclaimedAppend(a: seq<Volume>, v: Volume, claims: map<string, string>)
    ensures Unclaimed(a + [v], claims) == Unclaimed(a, claims) + (if v.name in claims then [] else [v])
  {
    assert (a + [v])[..|a|] == a;
  }

  lemma {:induction false} AllClaimed(a: seq<Volume>, claims: map<string, string>)
    requires forall v :: v in a ==> v.name in claims
    ensures Unclaimed(a, claims) == []
  {
    if a != [] {
      AllClaimed(a[..|a| - 1], claims);
    }
  }

  lemma {:induction false} NoneClaimed(a: seq<Volume>, claims: map<string, string>)
    requires forall v :: v in a ==> v.name !in claims
    ensures Unclaimed(a, claims) == a
  {
    if a != [] {
      NoneClaimed(a[..|a| - 1], claims);
      assert a[|a| - 1] in a;
      assert a == a[..|a| - 1] + [a[|a| - 1]];
    }
  }

  /** The repair keeps every volume no claim names, in order. */
  lemma UnclaimedKept(order: seq<string>, claims: map<string, string>, volumes: seq<Volume>)
    requires forall t :: t in order ==> t in claims
    ensures Unclaimed(Repaired(order, claims, volumes), claims) == Unclaimed(volumes, claims)
  {
    UnclaimedConcat(ClaimVolumes(order, claims), Unclaimed(volumes, claims), claims);
    AllClaimed(ClaimVolumes(order, claims), claims);
    UnclaimedMembers(volumes, claims);
    NoneClaimed(Unclaimed(volumes, claims), claims);
  }

  lemma {:induction false} ClaimVolumesConcat(a: seq<string>, b: seq<string>, claims: map<string, string>)
    requires forall t :: t in a + b ==> t in claims
    ensures (forall t :: t in a ==> t in claims) && (forall t :: t in b ==> t in claims)
    ensures ClaimVolumes(a + b, claims) == ClaimVolumes(a, claims) + ClaimVolumes(b, claims)
  {
    assert forall t :: t in a ==> t in a + b;
    assert forall t :: t in b ==> t in a + b;
  }

  lemma MovedToEnd(x: seq<string>, y: string, z: seq<string>, claims: map<string, string>)
    requires forall t :: t in x + [y] + z ==> t in claims
    ensures (forall t :: t in x + z ==> t in claims) && y in claims
    ensures multiset(ClaimVolumes(x + [y] + z, claims)) ==
            multiset(ClaimVolumes(x + z, claims)) + multiset{Volume(y, Claim(claims[y]))}
  {
    assert y in x + [y] + z;
    assert forall t :: t in x + z ==> t in x + [y] + z;
    ClaimVolumesConcat(x + [y], z, claims);
    ClaimVolumesConcat(x, [y], claims);
    ClaimVolumesConcat(x, z, claims);
    assert ClaimVolumes([y], claims) == [Volume(y, Claim(claims[y]))];
  }

  lemma {:induction false} ClaimVolumesPermute(a: seq<string>, b: seq<string>, claims: map<string, string>)
    requires multiset(a) == multiset(b)
    requires (forall t :: t in a ==> t in claims) && (forall t :: t in b ==> t in claims)
    ensures multiset(ClaimVolumes(a, claims)) == multiset(ClaimVolumes(b, claims))
    decreases |a|
  {
    if a == [] {
      assert |multiset(b)| == |b|;
      assert b == [];
    } else {
      var n := |a| - 1;
      assert a == a[..n] + [a[n]];
      var k := PlaceOf(b, a[n]);
      assert b == b[..k] + [b[k]] + b[k + 1..];
      SamePermuted(a[..n], b[..k], b[k + 1..], a[n]);
      MovedToEnd(b[..k], b[k], b[k + 1..], claims);
      ClaimVolumesPermute(a[..n], b[..k] + b[k + 1..], claims);
    }
  }

  lemma SamePermuted(a: seq<string>, x: seq<string>, z: seq<string>, y: string)
    requires multiset(a + [y]) == multiset(x + [y] + z)
    ensures multiset(a) == multiset(x + z)
  {
    assert multiset(a) == multiset(a + [y]) - multiset{y};
    assert multiset(x + z) == multiset(x + [y] + z) - multiset{y};
  }

  /** Repairing twice is repairing once, up to the order the claims were ranged over. */
  lemma RepairTwice(first: seq<string>, second: seq<string>, claims: map<string, string>, volumes: seq<Volume>)
    requires IsRange(first, claims) && IsRange(second, claims)
    ensures (forall t :: t in first ==> t in claims) && (forall t :: t in second ==> t in claims)
    ensures var once := Repaired(first, claims, volumes);
            && multiset(Repaired(second, claims, once)) == multiset(once)
            && Repaired(first, claims, once) == once
  {
    RangeFacts(first, claims);
    RangeFacts(second, claims);
    UnclaimedKept(first, claims, volumes);
    ClaimVolumesPermute(first, second, claims);
  }

  method RepairVolumes(order: seq<string>, claims: map<string, string>, volumes: seq<Volume>) returns (r: seq<Volume>)
    requires forall t :: t in order ==> t in claims
    ensures r == Repaired(order, claims, volumes)
  {
    r := [];
    for i := 0 to |order|
      invariant r == ClaimVolumes(order[..i], claims)
    {
      assert order[..i + 1][..i] == order[..i];
      r := r + [Volume(order[i], Claim(claims[order[i]]))];
    }
    assert order[..|order|] == order;
    for i := 0 to |volumes|
      invariant r == ClaimVolumes(order, claims) + Unclaimed(volumes[..i], claims)
    {
      assert volumes[..i + 1][..i] == volumes[..i];
      if volumes[i].name !in claims {
        r := r + [volumes[i]];
      }
    }
    assert volumes[..|volumes|] == volumes;
  }

  /** Whatever the range order and the templates, the repair makes the storage match exactly when
      the pod has an ordinal or needs none. */
  lemma RepairedMatches(
    nodeSet: NodeSet, podName: string, labels: map<Label, string>, order: seq<string>, volumes: seq<Volume>)
    requires IsRange(order, Claims(nodeSet, ClaimSuffix(nodeSet, podName, labels)))
    ensures var claims := Claims(nodeSet, ClaimSuffix(nodeSet, podName, labels));
            && (forall t :: t in order ==> t in claims)
            && (StorageMatches(nodeSet, podName, labels, Repaired(order, claims, volumes)) <==>
                !(nodeSet.mode == StatefulSet && ParentAndOrdinal(podName).1 < 0))
  {
    var claims := Claims(nodeSet, ClaimSuffix(nodeSet, podName, labels));
    RangeFacts(order, claims);
    forall t | t in nodeSet.templates ensures MountsClaim(Repaired(order, claims, volumes), t, claims[t]) {
      RepairedMounts(order, claims, volumes, t);
    }
  }

  function At(byName: map<string, Volume>, name: string): Option<Volume> {
    if name in byName then Some(byName[name]) else None
  }

  method VolumesByName(volumes: seq<Volume>) returns (byName: map<string, Volume>)
    ensures forall n :: At(byName, n) == LastNamed(volumes, n)
  {
    byName := map[];
    for i := 0 to |volumes|
      invariant forall n :: At(byName, n) == LastNamed(volumes[..i], n)
    {
      assert volumes[..i + 1][..i] == volumes[..i];
      byName := byName[volumes[i].name := volumes[i]];
    }
    assert volumes[..|volumes|] == volumes;
  }

  // ---- The pod ----

  class WorkerPod {
    var ns: string
    var name: string
    var generateName: string
    var hostname: string
    var nodeName: string
    var hostNetwork: bool
    var labels: map<Label, string>
    var volumes: seq<Volume>

    constructor (
      name: string, generateName: string, hostname: string, hostNetwork: bool, labels: map<Label, string>,
      volumes: seq<Volume>)
      ensures this.name == name && this.generateName == generateName && this.hostname == hostname
      ensures this.hostNetwork == hostNetwork && this.labels == labels && this.volumes == volumes
    {
      this.ns, this.name, this.generateName, this.hostname := "", name, generateName, hostname;
      this.nodeName, this.hostNetwork, this.labels, this.volumes := "", hostNetwork, labels, volumes;
    }

    function SlurmNodeName(): string
      reads this
    {
      if Get(labels, Scaling) == ModeName(StatefulSet) then
        if hostNetwork then nodeName else if hostname != "" then hostname else name
      else hostname
    }

    predicate IsIdentityMatch(nodeSet: NodeSet)
      reads this
    {
      && ns == nodeSet.ns && Get(labels, PodName) == name
      && if nodeSet.mode == StatefulSet
         then ParentAndOrdinal(name).1 >= 0 && nodeSet.name == ParentAndOrdinal(name).0
         else nodeSet.name == TrimDash(generateName)
    }

    /** The repair of an identity mends everything but the name itself. */
    method UpdateIdentity(nodeSet: NodeSet)
      modifies this
      ensures name == old(name) && hostname == old(hostname) && generateName == old(generateName)
      ensures volumes == old(volumes) && nodeName == old(nodeName) && hostNetwork == old(hostNetwork)
      ensures ns == nodeSet.ns
      ensures Get(labels, PodHostname) == old(SlurmNodeName()) && Get(labels, PodName) == name
      ensures nodeSet.mode == StatefulSet ==>
                Get(labels, PodIndex) == PaddedOrdinal(nodeSet.padding, ParentAndOrdinal(name).1)
      ensures forall l :: l !in {PodName, PodHostname, PodIndex} ==> Get(labels, l) == Get(old(labels), l)
      ensures IsIdentityMatch(nodeSet) <==>
                if nodeSet.mode == StatefulSet
                then ParentAndOrdinal(name).1 >= 0 && nodeSet.name == ParentAndOrdinal(name).0
                else nodeSet.name == TrimDash(generateName)
    {
      ns := nodeSet.ns;
      if nodeSet.mode == StatefulSet {
        labels := labels[PodIndex := PaddedOrdinal(nodeSet.padding, ParentAndOrdinal(name).1)];
      }
      labels := labels[PodName := name];
      labels := labels[PodHostname := SlurmNodeName()];
    }

    /** initIdentity: on top of the labels, an ordinal pod is named again from what its name
        parses to, while its name label keeps the name it came with. */
    method InitIdentity(nodeSet: NodeSet)
      modifies this
      ensures volumes == old(volumes) && hostNetwork == old(hostNetwork) && generateName == old(generateName)
      ensures nodeName == old(nodeName)
      ensures ns == nodeSet.ns && Get(labels, PodName) == old(name)
      ensures Get(labels, Scaling) == ModeName(nodeSet.mode)
      ensures forall l :: l !in {PodName, PodHostname, PodIndex, Scaling} ==> Get(labels, l) == Get(old(labels), l)
      ensures nodeSet.mode == DaemonSet ==>
                name == old(name) && hostname == old(hostname) && Get(labels, PodHostname) == old(SlurmNodeName())
      ensures nodeSet.mode == StatefulSet ==>
                var ordinal := ParentAndOrdinal(old(name)).1;
                && name == OrdinalPodName(nodeSet.name, nodeSet.padding, ordinal)
                && hostname == HostnameFor(old(hostname), nodeSet.name, nodeSet.padding, ordinal)
                && hostname != "" && Get(labels, PodIndex) == PaddedOrdinal(nodeSet.padding, ordinal)
                && (!hostNetwork ==> Get(labels, PodHostname) == hostname)
    {
      UpdateIdentity(nodeSet);
      if nodeSet.mode == StatefulSet {
        Rename(nodeSet, ParentAndOrdinal(name).1);
      }
      labels := labels[PodHostname := SlurmNodeName()];
      labels := labels[Scaling := ModeName(nodeSet.mode)];
    }

    method Rename(nodeSet: NodeSet, ordinal: int)
      modifies this`name, this`hostname
      ensures name == OrdinalPodName(nodeSet.name, nodeSet.padding, ordinal)
      ensures hostname == HostnameFor(old(hostname), nodeSet.name, nodeSet.padding, ordinal) && hostname != ""
    {
      name := OrdinalPodName(nodeSet.name, nodeSet.padding, ordinal);
      assert name[|nodeSet.name|] == '-';
      if hostname != "" {
        hostname := hostname + PaddedOrdinal(nodeSet.padding, ordinal);
      } else {
        hostname := name;
      }
    }

    /** A new pod of a StatefulSet-mode NodeSet needs no repair exactly when its ordinal fits 31
        bits and its NodeSet's name has one line; then its Slurm node is named for the ordinal. */
    method NewOrdinalPod(nodeSet: NodeSet, ordinal: nat)
      requires nodeSet.mode == StatefulSet && name == OrdinalPodName(nodeSet.name, nodeSet.padding, ordinal)
      modifies this
      ensures IsIdentityMatch(nodeSet) <==> ordinal < MAX_ORDINAL && '\n' !in nodeSet.name
      ensures ordinal < MAX_ORDINAL ==> name == old(name)
      ensures ordinal < MAX_ORDINAL && !hostNetwork ==>
                SlurmNodeName() == Get(labels, PodHostname)
                == HostnameFor(old(hostname), nodeSet.name, nodeSet.padding, ordinal)
      ensures hostNetwork ==> SlurmNodeName() == nodeName == old(nodeName)
    {
      NewNameFacts(nodeSet.name, nodeSet.padding, ordinal);
      InitIdentity(nodeSet);
    }

    /** UpdateStorage, ranging over the claims in the order given. */
    method UpdateStorage(nodeSet: NodeSet, order: seq<string>)
      requires IsRange(order, Claims(nodeSet, ClaimSuffix(nodeSet, name, labels)))
      modifies this`volumes
      ensures forall t :: t in order ==> t in Claims(nodeSet, ClaimSuffix(nodeSet, name, labels))
      ensures volumes == Repaired(order, Claims(nodeSet, ClaimSuffix(nodeSet, name, labels)), old(volumes))
      ensures StorageMatches(nodeSet, name, labels, volumes) <==>
                !(nodeSet.mode == StatefulSet && ParentAndOrdinal(name).1 < 0)
    {
      var claims := PersistentVolumeClaims(nodeSet, ClaimSuffix(nodeSet, name, labels));
      RepairedMatches(nodeSet, name, labels, order, volumes);
      volumes := RepairVolumes(order, claims, volumes);
    }

    /** IsStorageMatch: the by-name map, then one look per template. */
    method IsStorageMatch(nodeSet: NodeSet) returns (ok: bool)
      ensures ok <==> StorageMatches(nodeSet, name, labels, volumes)
    {
      if nodeSet.mode == StatefulSet && ParentAndOrdinal(name).1 < 0 { return false; }
      var suffix := ClaimSuffix(nodeSet, name, labels);
      var byName := VolumesByName(volumes);
      for i := 0 to |nodeSet.templates|
        invariant forall k :: 0 <= k < i ==>
                    MountsClaim(volumes, nodeSet.templates[k], ClaimFor(nodeSet, nodeSet.templates[k], suffix))
      {
        var t := nodeSet.templates[i];
        assert At(byName, t) == LastNamed(volumes, t);
        if t !in byName || byName[t].source != Claim(ClaimFor(nodeSet, t, suffix)) {
          assert !MountsClaim(volumes, t, ClaimFor(nodeSet, t, suffix));
          return false;
        }
      }
      ok := true;
    }
  }

  /** A new pod is renamed exactly when its ordinal does not fit, and is otherwise its parent's
      exactly when the name has one line. */
  lemma NewNameFacts(name: string, padding: nat, ordinal: nat)
    ensures var first := OrdinalPodName(name, padding, ordinal);
            var parsed := ParentAndOrdinal(first).1;
            && parsed == (if ordinal < MAX_ORDINAL then ordinal else -1)
            && (OrdinalPodName(name, padding, parsed) == first <==> ordinal < MAX_ORDINAL)
            && (ordinal < MAX_ORDINAL ==> (ParentAndOrdinal(first).0 == name <==> '\n' !in name))
  {
    ParsedName(name, padding, ordinal);
    RoundTripIff(name, padding, ordinal);
    NamesDiffer(name, padding, ordinal);
  }

  lemma NamesDiffer(name: string, padding: nat, ordinal: nat)
    ensures OrdinalPodName(name, padding, -1) != OrdinalPodName(name, padding, ordinal)
  {
    PaddedDigits(padding, ordinal);
    var s, t := OrdinalPodName(name, padding, -1), OrdinalPodName(name, padding, ordinal);
    assert s[|name| + 1] == '-';
    assert t[|name| + 1] == PaddedOrdinal(padding, ordinal)[0];
  }
}
