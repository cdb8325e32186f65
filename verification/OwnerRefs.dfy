/** Ownership of a pod's persistent volume claims: when the owner references of a claim fit the
    retention policy, and the repair that makes them fit. */
module OwnerRefs {

  datatype OwnerRef = OwnerRef(apiVersion: string, kind: string, name: string, uid: string, controller: bool)

  datatype Owner = Owner(apiVersion: string, kind: string, name: string, uid: string)

  datatype Policy = Unset | Retain | Delete | Unknown {
    function Effective(): Policy { if Unset? then Retain else this }
  }

  /** The NodeSet, the pod, its cordon state and the retention policy pair. */
  datatype Context = Context(nodeset: Owner, pod: Owner, cordoned: bool, whenScaled: Policy, whenDeleted: Policy) {
    predicate WellFormed() { nodeset.kind != pod.kind && nodeset.uid != pod.uid }
    function Scaled(): Policy { whenScaled.Effective() }
    function Deleted(): Policy { whenDeleted.Effective() }
    predicate RetainsAll() { Scaled() == Retain && Deleted() == Retain }
    /** Which owner the policy pair asks for. */
    predicate WantsNodeSet() {
      Deleted() == Delete && (Scaled() == Retain || (Scaled() == Delete && !cordoned))
    }
    predicate WantsPod() {
      Scaled() == Delete && (Deleted() == Retain || Deleted() == Delete) && cordoned
    }
  }

  predicate Matches(r: OwnerRef, o: Owner) {
    o.apiVersion == r.apiVersion && o.kind == r.kind && r.name == o.name
  }

  predicate Ours(c: Context, r: OwnerRef) {
    Matches(r, c.nodeset) || Matches(r, c.pod)
  }

  function ControllerRef(o: Owner): OwnerRef { OwnerRef(o.apiVersion, o.kind, o.name, o.uid, true) }

  /** The first reference that names the owner carries another UID. */
  predicate HasStaleOwnerRef(refs: seq<OwnerRef>, o: Owner) {
    refs != [] && if Matches(refs[0], o) then refs[0].uid != o.uid else HasStaleOwnerRef(refs[1..], o)
  }

  predicate HasOwnerRef(refs: seq<OwnerRef>, o: Owner) {
    exists r :: r in refs && r.uid == o.uid
  }

  predicate IsUnexpected(c: Context, r: OwnerRef) {
    if Matches(r, c.nodeset) then r.uid != c.nodeset.uid
    else if Matches(r, c.pod) then r.uid != c.pod.uid
    else r.controller
  }

  predicate HasUnexpectedController(c: Context, refs: seq<OwnerRef>) {
    !c.RetainsAll() && exists r :: r in refs && IsUnexpected(c, r)
  }

  predicate HasNonControllerOwner(c: Context, refs: seq<OwnerRef>) {
    exists r :: r in refs && (r.uid == c.nodeset.uid || r.uid == c.pod.uid) && !r.controller
  }

  predicate IsClaimOwnerUpToDate(c: Context, refs: seq<OwnerRef>) {
    if HasStaleOwnerRef(refs, c.nodeset) || HasStaleOwnerRef(refs, c.pod) then true
    else if HasUnexpectedController(c, refs) then
      !HasOwnerRef(refs, c.nodeset) && !HasOwnerRef(refs, c.pod)
    else if HasNonControllerOwner(c, refs) then false
    else match (c.Deleted(), c.Scaled())
      case (Delete, Retain) => HasOwnerRef(refs, c.nodeset) && !HasOwnerRef(refs, c.pod)
      case (Retain, Delete) => !HasOwnerRef(refs, c.nodeset) && c.cordoned == HasOwnerRef(refs, c.pod)
      case (Delete, Delete) => c.cordoned != HasOwnerRef(refs, c.nodeset) && c.cordoned == HasOwnerRef(refs, c.pod)
      case _ => !HasOwnerRef(refs, c.nodeset) && !HasOwnerRef(refs, c.pod)
  }

  /** The references that name neither the NodeSet nor the pod, in order. */
  function Foreign(c: Context, refs: seq<OwnerRef>): (r: seq<OwnerRef>)
    ensures forall x :: x in r <==> x in refs && !Ours(c, x)
  {
    if refs == [] then []
    else if Ours(c, refs[0]) then Foreign(c, refs[1..])
    else [refs[0]] + Foreign(c, refs[1..])
  }

  function AddControllerRef(refs: seq<OwnerRef>, o: Owner): seq<OwnerRef> {
    if HasOwnerRef(refs, o) then refs else refs + [ControllerRef(o)]
  }

  function UpdateClaimOwnerRef(c: Context, refs: seq<OwnerRef>): seq<OwnerRef> {
    var scrubbed := Foreign(c, refs);
    if HasUnexpectedController(c, refs) then scrubbed
    else match (c.Scaled(), c.Deleted())
      case (Retain, Delete) => AddControllerRef(scrubbed, c.nodeset)
      case (Delete, Retain) => if c.cordoned then AddControllerRef(scrubbed, c.pod) else scrubbed
      case (Delete, Delete) =>
        if c.cordoned then AddControllerRef(scrubbed, c.pod) else AddControllerRef(scrubbed, c.nodeset)
      case _ => scrubbed
  }

  // ---- Conditions on a claim, all visible before the repair ----

  /** A reference with one of our UIDs under another name or kind. */
  ghost predicate HasAlias(c: Context, refs: seq<OwnerRef>) {
    exists r :: r in refs && !Ours(c, r) && (r.uid == c.nodeset.uid || r.uid == c.pod.uid)
  }

  ghost predicate HasForeignController(c: Context, refs: seq<OwnerRef>) {
    exists r :: r in refs && !Ours(c, r) && r.controller
  }

  /** A claim the repair leaves alone because of a stale reference of ours, although the policy
      wants an owner and no foreign controller stands in the way. */
  ghost predicate HeldBack(c: Context, refs: seq<OwnerRef>) {
    HasUnexpectedController(c, refs) && !HasForeignController(c, refs) && (c.WantsNodeSet() || c.WantsPod())
  }

  /** References match by name and kind exactly when they match by UID. */
  ghost predicate Coherent(c: Context, refs: seq<OwnerRef>) {
    forall r :: r in refs ==>
      (Matches(r, c.nodeset) <==> r.uid == c.nodeset.uid) && (Matches(r, c.pod) <==> r.uid == c.pod.uid)
  }

  lemma {:induction false} ForeignConcat(c: Context, a: seq<OwnerRef>, b: seq<OwnerRef>)
    ensures Foreign(c, a + b) == Foreign(c, a) + Foreign(c, b)
  {
    if a == [] {
      assert a + b == b;
    } else {
      assert (a + b)[1..] == a[1..] + b;
      ForeignConcat(c, a[1..], b);
    }
  }

  lemma {:induction false} ForeignIsFixed(c: Context, refs: seq<OwnerRef>)
    ensures Foreign(c, Foreign(c, refs)) == Foreign(c, refs)
  {
    if refs != [] {
      ForeignIsFixed(c, refs[1..]);
      if !Ours(c, refs[0]) {
        assert ([refs[0]] + Foreign(c, refs[1..]))[1..] == Foreign(c, refs[1..]);
      }
    }
  }

  /** What the repair appends. */
  ghost function Added(c: Context, refs: seq<OwnerRef>): seq<OwnerRef> {
    var scrubbed := Foreign(c, refs);
    if HasUnexpectedController(c, refs) then []
    else if c.WantsNodeSet() && !HasOwnerRef(scrubbed, c.nodeset) then [ControllerRef(c.nodeset)]
    else if c.WantsPod() && !HasOwnerRef(scrubbed, c.pod) then [ControllerRef(c.pod)]
    else []
  }

  lemma RepairAppends(c: Context, refs: seq<OwnerRef>)
    requires c.WellFormed()
    ensures UpdateClaimOwnerRef(c, refs) == Foreign(c, refs) + Added(c, refs)
  {
    assert Foreign(c, refs) + [] == Foreign(c, refs);
  }

  /** The repair keeps the foreign references in order and appends at most the one controller
      the policy asks for. */
  lemma RepairShape(c: Context, refs: seq<OwnerRef>)
    requires c.WellFormed()
    ensures UpdateClaimOwnerRef(c, refs) == Foreign(c, refs) + Added(c, refs)
    ensures Foreign(c, UpdateClaimOwnerRef(c, refs)) == Foreign(c, refs)
  {
    var scrubbed, added := Foreign(c, refs), Added(c, refs);
    RepairAppends(c, refs);
    ForeignConcat(c, scrubbed, added);
    ForeignIsFixed(c, refs);
    AddedIsOurs(c, refs);
    assert scrubbed + [] == scrubbed;
  }

  lemma AddedIsOurs(c: Context, refs: seq<OwnerRef>)
    ensures Foreign(c, Added(c, refs)) == []
  {
    AllOurs(c, Added(c, refs));
  }

  lemma {:induction false} AllOurs(c: Context, refs: seq<OwnerRef>)
    requires forall r :: r in refs ==> Ours(c, r)
    ensures Foreign(c, refs) == []
  {
    if refs != [] { AllOurs(c, refs[1..]); }
  }

  lemma {:induction false} NotStale(refs: seq<OwnerRef>, o: Owner)
    requires forall r :: r in refs && Matches(r, o) ==> r.uid == o.uid
    ensures !HasStaleOwnerRef(refs, o)
  {
    if refs != [] && !Matches(refs[0], o) {
      NotStale(refs[1..], o);
    }
  }

  lemma RepairedNotStale(c: Context, refs: seq<OwnerRef>)
    requires c.WellFormed()
    ensures var after := UpdateClaimOwnerRef(c, refs);
            !HasStaleOwnerRef(after, c.nodeset) && !HasStaleOwnerRef(after, c.pod)
  {
    RepairShape(c, refs);
    var after := UpdateClaimOwnerRef(c, refs);
    assert forall r :: r in after ==> r in Foreign(c, refs) || r in Added(c, refs);
    NotStale(after, c.nodeset);
    NotStale(after, c.pod);
  }

  /** Exactly when one repair brings a claim up to date, for every policy pair, cordon state and
      list of references. */
  lemma RepairedIff(c: Context, refs: seq<OwnerRef>)
    requires c.WellFormed()
    ensures IsClaimOwnerUpToDate(c, UpdateClaimOwnerRef(c, refs)) <==> !HasAlias(c, refs) && !HeldBack(c, refs)
  {
    var scrubbed, added, after := Foreign(c, refs), Added(c, refs), UpdateClaimOwnerRef(c, refs);
    RepairShape(c, refs);
    RepairedNotStale(c, refs);
    assert forall r :: r in after <==> r in scrubbed || r in added;
    if HasAlias(c, refs) {
      var r :| r in refs && !Ours(c, r) && (r.uid == c.nodeset.uid || r.uid == c.pod.uid);
      assert r in after;
      AliasStaysOutdated(c, refs, r);
    } else {
      AfterOwners(c, refs);
    }
  }

  lemma AliasStaysOutdated(c: Context, refs: seq<OwnerRef>, r: OwnerRef)
    requires c.WellFormed() && r in refs && !Ours(c, r) && (r.uid == c.nodeset.uid || r.uid == c.pod.uid)
    ensures !IsClaimOwnerUpToDate(c, UpdateClaimOwnerRef(c, refs))
  {
    var after := UpdateClaimOwnerRef(c, refs);
    RepairShape(c, refs);
    RepairedNotStale(c, refs);
    assert r in after;
    if !HasUnexpectedController(c, after) && !c.RetainsAll() {
      assert !r.controller by { if r.controller { assert IsUnexpected(c, r); } }
    }
  }

  lemma AfterOwners(c: Context, refs: seq<OwnerRef>)
    requires c.WellFormed() && !HasAlias(c, refs)
    ensures IsClaimOwnerUpToDate(c, UpdateClaimOwnerRef(c, refs)) <==> !HeldBack(c, refs)
  {
    var scrubbed, added, after := Foreign(c, refs), Added(c, refs), UpdateClaimOwnerRef(c, refs);
    RepairShape(c, refs);
    RepairedNotStale(c, refs);
    assert forall r :: r in after <==> r in scrubbed || r in added;
    assert !HasOwnerRef(scrubbed, c.nodeset) && !HasOwnerRef(scrubbed, c.pod);
    assert HasOwnerRef(after, c.nodeset) <==> ControllerRef(c.nodeset) in added;
    assert HasOwnerRef(after, c.pod) <==> ControllerRef(c.pod) in added;
    UnexpectedAfter(c, refs);
    if HasForeignController(c, refs) && !c.RetainsAll() {
      var r :| r in refs && !Ours(c, r) && r.controller;
      assert IsUnexpected(c, r);
    }
    assert !HasNonControllerOwner(c, after);
  }

  /** Exactly when repairing twice is repairing once, for claims without aliases. */
  lemma RepeatIff(c: Context, refs: seq<OwnerRef>)
    requires c.WellFormed() && !HasAlias(c, refs)
    ensures var once := UpdateClaimOwnerRef(c, refs);
            UpdateClaimOwnerRef(c, once) == once <==> !HeldBack(c, refs)
  {
    var scrubbed, added, once := Foreign(c, refs), Added(c, refs), UpdateClaimOwnerRef(c, refs);
    RepairShape(c, refs);
    RepairShape(c, once);
    UnexpectedAfter(c, refs);
    AddedAgain(c, refs, once);
    SameTail(scrubbed, Added(c, once), added);
  }

  lemma SameTail(s: seq<OwnerRef>, a: seq<OwnerRef>, b: seq<OwnerRef>)
    ensures s + a == s + b <==> a == b
  {
    assert (s + a)[|s|..] == a && (s + b)[|s|..] == b;
  }

  /** After a repair only a foreign controller is unexpected. */
  lemma UnexpectedAfter(c: Context, refs: seq<OwnerRef>)
    requires c.WellFormed() && !HasAlias(c, refs)
    ensures HasUnexpectedController(c, UpdateClaimOwnerRef(c, refs)) <==>
            !c.RetainsAll() && HasForeignController(c, refs)
  {
    var scrubbed, added, after := Foreign(c, refs), Added(c, refs), UpdateClaimOwnerRef(c, refs);
    RepairShape(c, refs);
    assert forall r :: r in after <==> r in scrubbed || r in added;
    assert forall r :: r in added ==> !IsUnexpected(c, r);
    if HasForeignController(c, refs) {
      var r :| r in refs && !Ours(c, r) && r.controller;
      assert r in after && IsUnexpected(c, r);
    }
  }

  lemma AddedAgain(c: Context, refs: seq<OwnerRef>, once: seq<OwnerRef>)
    requires !HasAlias(c, refs) && Foreign(c, once) == Foreign(c, refs)
    requires HasUnexpectedController(c, once) <==> !c.RetainsAll() && HasForeignController(c, refs)
    ensures Added(c, once) == Added(c, refs) <==> !HeldBack(c, refs)
  {
    var scrubbed := Foreign(c, refs);
    assert !HasOwnerRef(scrubbed, c.nodeset) && !HasOwnerRef(scrubbed, c.pod);
    if HasForeignController(c, refs) && !c.RetainsAll() {
      var r :| r in refs && !Ours(c, r) && r.controller;
      assert IsUnexpected(c, r);
    }
  }

  /** The promise, for claims whose references match by name exactly when they match by UID: one
      repair brings the claim up to date, and repairing again changes nothing. */
  lemma RepairIsFixedPoint(c: Context, refs: seq<OwnerRef>)
    requires c.WellFormed() && Coherent(c, refs)
    ensures var once := UpdateClaimOwnerRef(c, refs);
            && IsClaimOwnerUpToDate(c, once)
            && UpdateClaimOwnerRef(c, once) == once
            && Foreign(c, once) == Foreign(c, refs)
  {
    assert !HasAlias(c, refs);
    if HasUnexpectedController(c, refs) {
      var r :| r in refs && IsUnexpected(c, r);
      assert !Ours(c, r) && r.controller;
      assert HasForeignController(c, refs);
    }
    RepairedIff(c, refs);
    RepeatIff(c, refs);
    RepairShape(c, refs);
  }

  /** Without aliases a second repair always does it. */
  lemma TwoRepairsSuffice(c: Context, refs: seq<OwnerRef>)
    requires c.WellFormed() && !HasAlias(c, refs)
    ensures IsClaimOwnerUpToDate(c, UpdateClaimOwnerRef(c, UpdateClaimOwnerRef(c, refs)))
  {
    var once := UpdateClaimOwnerRef(c, refs);
    RepairShape(c, refs);
    RepairedIff(c, once);
    assert forall r :: r in once ==> r in Foreign(c, refs) || r in Added(c, refs);
    assert !HasAlias(c, once);
    assert forall r :: r in once && IsUnexpected(c, r) ==> !Ours(c, r) && r.controller;
  }

  function Controllers(refs: seq<OwnerRef>): nat {
    if refs == [] then 0 else (if refs[0].controller then 1 else 0) + Controllers(refs[1..])
  }

  lemma {:induction false} NoControllers(refs: seq<OwnerRef>)
    ensures Controllers(refs) == 0 <==> forall r :: r in refs ==> !r.controller
  {
    if refs != [] {
      NoControllers(refs[1..]);
      assert refs == [refs[0]] + refs[1..];
    }
  }

  lemma {:induction false} ForeignControllers(c: Context, refs: seq<OwnerRef>)
    ensures Controllers(Foreign(c, refs)) <= Controllers(refs)
  {
    if refs != [] {
      ForeignControllers(c, refs[1..]);
      if !Ours(c, refs[0]) {
        assert ([refs[0]] + Foreign(c, refs[1..]))[1..] == Foreign(c, refs[1..]);
      }
    }
  }

  lemma {:induction false} ControllersAppend(refs: seq<OwnerRef>, r: OwnerRef)
    ensures Controllers(refs + [r]) == Controllers(refs) + (if r.controller then 1 else 0)
  {
    if refs == [] {
      assert refs + [r] == [r];
      assert [r][1..] == [];
    } else {
      assert (refs + [r])[1..] == refs[1..] + [r];
      ControllersAppend(refs[1..], r);
    }
  }

  /** The repair never gives a claim a second controller. */
  lemma OneControllerAtMost(c: Context, refs: seq<OwnerRef>)
    requires c.WellFormed() && Controllers(refs) <= 1
    ensures Controllers(UpdateClaimOwnerRef(c, refs)) <= 1
  {
    var scrubbed, added := Foreign(c, refs), Added(c, refs);
    RepairShape(c, refs);
    ForeignControllers(c, refs);
    if added == [] {
      assert scrubbed + added == scrubbed;
    } else {
      forall r | r in scrubbed ensures !r.controller {
        assert !IsUnexpected(c, r);
      }
      NoControllers(scrubbed);
      ControllersAppend(scrubbed, added[0]);
      assert added == [added[0]];
    }
  }

  // ---- Which owner a claim ends up with ----

  /** Deleting the NodeSet is to delete the claim, and the pod is not being scaled away as well. */
  predicate NodeSetShouldOwn(c: Context) {
    c.whenDeleted == Delete
    && (c.whenScaled == Unset || c.whenScaled == Retain || (c.whenScaled == Delete && !c.cordoned))
  }

  /** The pod is being scaled away, and its claim is to go with it. */
  predicate PodShouldOwn(c: Context) {
    c.whenScaled == Delete && c.cordoned
    && (c.whenDeleted == Unset || c.whenDeleted == Retain || c.whenDeleted == Delete)
  }

  /** The owner is there as a controller under its own name exactly if asked for. */
  ghost predicate OwnedIff(refs: seq<OwnerRef>, o: Owner, wanted: bool) {
    && ((exists r :: r in refs && r.uid == o.uid) <==> wanted)
    && (wanted ==> OwnerRef(o.apiVersion, o.kind, o.name, o.uid, true) in refs)
  }

  function Settled(c: Context, refs: seq<OwnerRef>): seq<OwnerRef> {
    if IsClaimOwnerUpToDate(c, refs) then refs else UpdateClaimOwnerRef(c, refs)
  }

  lemma NotUnexpected(c: Context, refs: seq<OwnerRef>)
    requires Coherent(c, refs) && !HasForeignController(c, refs)
    ensures !HasUnexpectedController(c, refs)
  {
  }

  lemma CoherentNotStale(c: Context, refs: seq<OwnerRef>)
    requires Coherent(c, refs)
    ensures !HasStaleOwnerRef(refs, c.nodeset) && !HasStaleOwnerRef(refs, c.pod)
  {
    NotStale(refs, c.nodeset);
    NotStale(refs, c.pod);
  }

  lemma WhoIsThere(c: Context, refs: seq<OwnerRef>, o: Owner)
    requires HasOwnerRef(refs, o) && !HasNonControllerOwner(c, refs) && (o == c.nodeset || o == c.pod)
    requires forall r :: r in refs && r.uid == o.uid ==> Matches(r, o)
    ensures OwnerRef(o.apiVersion, o.kind, o.name, o.uid, true) in refs
  {
    var r :| r in refs && r.uid == o.uid;
    assert r == OwnerRef(o.apiVersion, o.kind, o.name, o.uid, true);
  }

  /** A claim found up to date has the owner its policy asks for. */
  lemma UpToDateOwners(c: Context, refs: seq<OwnerRef>)
    requires Coherent(c, refs) && !HasForeignController(c, refs) && IsClaimOwnerUpToDate(c, refs)
    ensures OwnedIff(refs, c.nodeset, NodeSetShouldOwn(c)) && OwnedIff(refs, c.pod, PodShouldOwn(c))
  {
    NotUnexpected(c, refs);
    CoherentNotStale(c, refs);
    if HasOwnerRef(refs, c.nodeset) { WhoIsThere(c, refs, c.nodeset); }
    if HasOwnerRef(refs, c.pod) { WhoIsThere(c, refs, c.pod); }
  }

  /** For coherent claims without a foreign controller, over the policy fields as written, where unset
      counts as retain: which owner the claim carries once it is settled. */
  lemma SettledOwners(c: Context, refs: seq<OwnerRef>)
    requires c.WellFormed() && Coherent(c, refs) && !HasForeignController(c, refs)
    ensures var after := Settled(c, refs);
            OwnedIff(after, c.nodeset, NodeSetShouldOwn(c)) && OwnedIff(after, c.pod, PodShouldOwn(c))
  {
    if IsClaimOwnerUpToDate(c, refs) {
      UpToDateOwners(c, refs);
    } else {
      var after := UpdateClaimOwnerRef(c, refs);
      RepairShape(c, refs);
      RepairIsFixedPoint(c, refs);
      forall r | r in after ensures r in Foreign(c, refs) || r in Added(c, refs) {
      }
      UpToDateOwners(c, after);
    }
  }

  /** A claim whose first reference under our name carries another UID is left as it is. */
  lemma StaleIsLeft(c: Context, refs: seq<OwnerRef>, front: seq<OwnerRef>, r: OwnerRef, back: seq<OwnerRef>, o: Owner)
    requires refs == front + [r] + back && (o == c.nodeset || o == c.pod)
    requires Matches(r, o) && r.uid != o.uid && forall f :: f in front ==> !Matches(f, o)
    ensures Settled(c, refs) == refs
  {
    FirstDecides(front, r, back, o);
  }

  lemma {:induction false} FirstDecides(front: seq<OwnerRef>, r: OwnerRef, back: seq<OwnerRef>, o: Owner)
    requires Matches(r, o) && r.uid != o.uid && forall f :: f in front ==> !Matches(f, o)
    ensures HasStaleOwnerRef(front + [r] + back, o)
  {
    if front == [] {
      assert ([] + [r] + back)[0] == r;
    } else {
      assert front[0] in front && (front + [r] + back)[0] == front[0];
      assert (front + [r] + back)[1..] == front[1..] + [r] + back;
      FirstDecides(front[1..], r, back, o);
    }
  }

  /** A coherent claim that somebody else controls ends up with no owner of ours, unless everything is
      to be retained anyway. */
  lemma ForeignControllerWins(c: Context, refs: seq<OwnerRef>)
    requires c.WellFormed() && Coherent(c, refs) && HasForeignController(c, refs)
    ensures forall r :: r in Settled(c, refs) ==> r.uid != c.nodeset.uid && r.uid != c.pod.uid
  {
    CoherentNotStale(c, refs);
    var f :| f in refs && !Ours(c, f) && f.controller;
    if c.RetainsAll() {
      if !IsClaimOwnerUpToDate(c, refs) { RepairShape(c, refs); }
    } else {
      assert IsUnexpected(c, f);
      if !IsClaimOwnerUpToDate(c, refs) { RepairShape(c, refs); }
    }
  }

  // ---- The claim as it is mutated ----

  class Claim {
    var ownerReferences: seq<OwnerRef>

    constructor (refs: seq<OwnerRef>)
      ensures ownerReferences == refs
    {
      ownerReferences := refs;
    }

    /** removeRefs with the predicate "names our NodeSet or pod". */
    method RemoveOurRefs(c: Context) returns (newRefs: seq<OwnerRef>)
      ensures newRefs == Foreign(c, ownerReferences)
    {
      newRefs := [];
      assert ownerReferences[..0] == [];
      for i := 0 to |ownerReferences|
        invariant newRefs == Foreign(c, ownerReferences[..i])
      {
        var ref := ownerReferences[i];
        ForeignConcat(c, ownerReferences[..i], [ref]);
        assert ownerReferences[..i + 1] == ownerReferences[..i] + [ref];
        assert [ref][1..] == [];
        if !Ours(c, ref) {
          newRefs := newRefs + [ref];
        }
      }
      assert ownerReferences[..|ownerReferences|] == ownerReferences;
    }

    method FindUnexpectedController(c: Context) returns (found: bool)
      ensures found == HasUnexpectedController(c, ownerReferences)
    {
      if c.RetainsAll() { return false; }
      for i := 0 to |ownerReferences|
        invariant forall j :: 0 <= j < i ==> !IsUnexpected(c, ownerReferences[j])
      {
        if IsUnexpected(c, ownerReferences[i]) { return true; }
      }
      found := false;
    }

    /** updateClaimOwnerRefForSetAndPod. */
    method Repair(c: Context)
      modifies this
      ensures ownerReferences == UpdateClaimOwnerRef(c, old(ownerReferences))
    {
      var unexpectedController := FindUnexpectedController(c);
      var refs := RemoveOurRefs(c);
      if !unexpectedController {
        if c.Scaled() == Retain && c.Deleted() == Delete {
          refs := AddControllerRef(refs, c.nodeset);
        } else if c.Scaled() == Delete && c.Deleted() == Retain {
          if c.cordoned { refs := AddControllerRef(refs, c.pod); }
        } else if c.Scaled() == Delete && c.Deleted() == Delete {
          if c.cordoned { refs := AddControllerRef(refs, c.pod); }
          if !c.cordoned { refs := AddControllerRef(refs, c.nodeset); }
        }
      }
      ownerReferences := refs;
    }

    /** UpdatePodPVCsForRetentionPolicy for one claim: repair only what is out of date. */
    method RepairIfNeeded(c: Context) returns (changed: bool)
      requires c.WellFormed()
      modifies this
      ensures !changed ==> ownerReferences == old(ownerReferences)
      ensures Foreign(c, ownerReferences) == Foreign(c, old(ownerReferences))
      ensures Coherent(c, old(ownerReferences)) ==> IsClaimOwnerUpToDate(c, ownerReferences)
      ensures Coherent(c, old(ownerReferences)) && !HasForeignController(c, old(ownerReferences)) ==>
                && OwnedIff(ownerReferences, c.nodeset, NodeSetShouldOwn(c))
                && OwnedIff(ownerReferences, c.pod, PodShouldOwn(c))
    {
      if Coherent(c, ownerReferences) && !HasForeignController(c, ownerReferences) {
        SettledOwners(c, ownerReferences);
      }
      changed := !IsClaimOwnerUpToDate(c, ownerReferences);
      RepairShape(c, ownerReferences);
      if Coherent(c, ownerReferences) { RepairIsFixedPoint(c, ownerReferences); }
      if changed { Repair(c); }
    }
  }
}
