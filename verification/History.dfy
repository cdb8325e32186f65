/** Revision history: numbering, rollbacks, name collisions and truncation. */
module History {
  import opened Sets

  /** A stored ControllerRevision, less its name. The label is the hash pods are compared by. */
  datatype Revision = Revision(number: int, data: string, hashLabel: string)

  /** The hash of data under a collision count. */
  type Hash = (string, nat) -> string

  function NameOf(nodeSet: string, hash: string): string { nodeSet + "-" + hash }

  lemma NameOfInjective(nodeSet: string, a: string, b: string)
    ensures NameOf(nodeSet, a) == NameOf(nodeSet, b) <==> a == b
  {
    var k := |nodeSet| + 1;
    assert NameOf(nodeSet, a)[k..] == a && NameOf(nodeSet, b)[k..] == b;
  }

  // ---- Invariant ----

  ghost predicate DistinctData(store: map<string, Revision>) {
    forall a, b :: a in store && b in store && store[a].data == store[b].data ==> a == b
  }

  ghost predicate DistinctNumbers(store: map<string, Revision>) {
    forall a, b :: a in store && b in store && store[a].number == store[b].number ==> a == b
  }

  ghost predicate WellFormed(store: map<string, Revision>) { DistinctData(store) && DistinctNumbers(store) }

  ghost predicate Newest(store: map<string, Revision>, name: string) {
    name in store && forall a :: a in store ==> store[a].number <= store[name].number
  }

  /** The stored revisions, listed and sorted by number. */
  ghost predicate IsListing(store: map<string, Revision>, listed: seq<string>) {
    && (forall n :: n in listed <==> n in store)
    && (forall i, j :: 0 <= i < j < |listed| ==> listed[i] != listed[j])
    && (forall i, j :: 0 <= i < j < |listed| ==> store[listed[i]].number <= store[listed[j]].number)
  }

  function NextRevision(store: map<string, Revision>, listed: seq<string>): (next: int)
    requires forall n :: n in listed ==> n in store
    ensures IsListing(store, listed) ==> IsNext(store, next)
  {
    if listed == [] then 1 else
      var last := listed[|listed| - 1];
      assert IsListing(store, listed) ==> IsNext(store, store[last].number + 1) by {
        if IsListing(store, listed) { LastIsNewest(store, listed); }
      }
      store[last].number + 1
  }

  /** What looking up the template's revision does to the store. */
  ghost predicate Synced(before: map<string, Revision>, after: map<string, Revision>, data: string, update: string) {
    if exists n :: n in before && before[n].data == data then
      && update in before && before[update].data == data
      && if Newest(before, update) then after == before
         else exists next: int :: IsNext(before, next) && Renumbered(before, after, update, next)
    else
      && update !in before
      && exists next: int, hashLabel: string ::
           IsNext(before, next) && Created(before, after, update, Revision(next, data, hashLabel))
  }

  ghost predicate Renumbered(before: map<string, Revision>, after: map<string, Revision>, name: string, next: int) {
    name in before && after == before[name := before[name].(number := next)]
  }

  ghost predicate Created(
    before: map<string, Revision>, after: map<string, Revision>, name: string, revision: Revision)
  {
    after == before[name := revision]
  }

  /** One more than the greatest number, or 1 for an empty store. */
  ghost predicate IsNext(store: map<string, Revision>, next: int) {
    if store == map[] then next == 1 else exists n :: Newest(store, n) && next == store[n].number + 1
  }

  lemma SyncedKeeps(before: map<string, Revision>, after: map<string, Revision>, data: string, update: string)
    requires WellFormed(before) && Synced(before, after, data, update)
    ensures WellFormed(after) && Newest(after, update) && after[update].data == data
    ensures forall n :: n in before ==>
              n in after && after[n].data == before[n].data && after[n].hashLabel == before[n].hashLabel
  {
    if after != before {
      if n :| n in before && before[n].data == data {
        var next: int :| IsNext(before, next) && Renumbered(before, after, update, next);
        NextIsAbove(before, next);
        RenumberedKeeps(before, after, update, next);
      } else {
        var next: int, hashLabel: string :|
          IsNext(before, next) && Created(before, after, update, Revision(next, data, hashLabel));
        NextIsAbove(before, next);
        CreatedKeeps(before, after, update, Revision(next, data, hashLabel));
      }
    }
  }

  lemma CreatedKeeps(before: map<string, Revision>, after: map<string, Revision>, name: string, r: Revision)
    requires WellFormed(before) && name !in before && Created(before, after, name, r)
    requires forall n :: n in before ==> before[n].number < r.number && before[n].data != r.data
    ensures WellFormed(after) && Newest(after, name) && after[name] == r
    ensures forall n :: n in before ==> n in after && after[n] == before[n]
  {
  }

  lemma NextIsAbove(store: map<string, Revision>, next: int)
    requires IsNext(store, next)
    ensures forall n :: n in store ==> store[n].number < next
  {
  }

  lemma RenumberedKeeps(before: map<string, Revision>, after: map<string, Revision>, name: string, next: int)
    requires WellFormed(before) && Renumbered(before, after, name, next)
    requires forall n :: n in before ==> before[n].number < next
    ensures WellFormed(after) && Newest(after, name)
    ensures forall n :: n in before ==>
              n in after && after[n].data == before[n].data && after[n].hashLabel == before[n].hashLabel
  {
  }

  /** Truncation takes revisions away, never the update revision. */
  ghost predicate Truncated(before: map<string, Revision>, after: map<string, Revision>, update: string) {
    && after.Keys <= before.Keys && (update in before ==> update in after)
    && forall n :: n in after ==> after[n] == before[n]
  }

  lemma TruncatedKeeps(before: map<string, Revision>, after: map<string, Revision>, update: string)
    requires WellFormed(before) && Truncated(before, after, update)
    ensures WellFormed(after)
    ensures Newest(before, update) ==> Newest(after, update) && after[update] == before[update]
  {
  }

  /** One reconcile of a NodeSet whose template has the data; the lookup took effect, or changed
      nothing. */
  datatype Reconcile = Reconcile(
    data: string, update: string, effective: bool, synced: map<string, Revision>, after: map<string, Revision>)

  ghost predicate Steps(store: map<string, Revision>, run: seq<Reconcile>) {
    run == [] ||
    (var n := |run| - 1;
     && Steps(store, run[..n])
     && (if run[n].effective then Synced(StoreAfter(store, run[..n]), run[n].synced, run[n].data, run[n].update)
         else run[n].synced == StoreAfter(store, run[..n]))
     && Truncated(run[n].synced, run[n].after, run[n].update))
  }

  ghost function StoreAfter(store: map<string, Revision>, run: seq<Reconcile>): map<string, Revision> {
    if run == [] then store else run[|run| - 1].after
  }

  /** Through every sequence of template edits, rollbacks included, with any truncations between:
      data and numbers stay pairwise distinct, and once a lookup took effect the current template's
      revision is the newest. */
  lemma {:induction false} HistoryInvariant(store: map<string, Revision>, run: seq<Reconcile>)
    requires WellFormed(store) && Steps(store, run)
    ensures WellFormed(StoreAfter(store, run))
    ensures run != [] && run[|run| - 1].effective ==>
              var r := run[|run| - 1]; Newest(r.after, r.update) && r.after[r.update].data == r.data
  {
    if run != [] {
      var n := |run| - 1;
      HistoryInvariant(store, run[..n]);
      if run[n].effective {
        SyncedKeeps(StoreAfter(store, run[..n]), run[n].synced, run[n].data, run[n].update);
      }
      TruncatedKeeps(run[n].synced, run[n].after, run[n].update);
    }
  }

  // ---- Listings ----

  /** FindEqualRevisions. */
  function Equal(store: map<string, Revision>, listed: seq<string>, data: string): (r: seq<string>)
    requires forall n :: n in listed ==> n in store
    ensures forall n :: n in r <==> n in listed && store[n].data == data
  {
    if listed == [] then [] else
      var last := listed[|listed| - 1];
      Equal(store, listed[..|listed| - 1], data) + (if store[last].data == data then [last] else [])
  }

  function NonLive(listed: seq<string>, live: set<string>): (r: seq<string>)
    ensures |r| <= |listed|
    ensures forall n :: n in r <==> n in listed && n !in live
  {
    if listed == [] then [] else
      var last := listed[|listed| - 1];
      NonLive(listed[..|listed| - 1], live) + (if last in live then [] else [last])
  }

  ghost predicate SortedBy(store: map<string, Revision>, names: seq<string>) {
    && (forall n :: n in names ==> n in store)
    && forall i, j :: 0 <= i < j < |names| ==> store[names[i]].number <= store[names[j]].number
  }

  /** Filtering keeps the order, so a front of the non-live revisions holds the lowest numbers. */
  lemma {:induction false} NonLiveSorted(store: map<string, Revision>, listed: seq<string>, live: set<string>)
    requires SortedBy(store, listed)
    ensures SortedBy(store, NonLive(listed, live))
  {
    if listed != [] {
      var n := |listed| - 1;
      NonLiveSorted(store, listed[..n], live);
      var front := NonLive(listed[..n], live);
      forall i | 0 <= i < |front| ensures store[front[i]].number <= store[listed[n]].number {
        assert front[i] in listed[..n];
        var j :| 0 <= j < n && listed[j] == front[i];
      }
    }
  }

  /** What truncation should remove: the surplus of non-live revisions over the limit. */
  function Surplus(listed: seq<string>, live: set<string>, limit: nat): (k: nat)
    ensures k <= |NonLive(listed, live)|
  {
    var n := |NonLive(listed, live)|;
    if n <= limit then 0 else n - limit
  }

  /** Whatever front of the non-live revisions is deleted, the others have no lower number. */
  lemma DeletedAreLowest(store: map<string, Revision>, listed: seq<string>, live: set<string>, deleted: seq<string>)
    requires IsListing(store, listed) && deleted <= NonLive(listed, live)
    ensures forall d, n :: d in deleted && n in listed && n !in live && n !in deleted ==>
              d in store && n in store && store[d].number <= store[n].number
  {
    var names := NonLive(listed, live);
    NonLiveSorted(store, listed, live);
    forall d, n | d in deleted && n in listed && n !in live && n !in deleted
      ensures d in store && n in store && store[d].number <= store[n].number
    {
      var i :| 0 <= i < |deleted| && deleted[i] == d;
      var j :| 0 <= j < |names| && names[j] == n;
      forall k | 0 <= k < |deleted| ensures names[k] in deleted { assert names[k] == deleted[k]; }
      assert names[i] == d && |deleted| <= j;
    }
  }

  /** The lookup renumbers the update revision only, which is live; so the deleted revisions are the
      lowest in the store that truncation leaves. */
  lemma StillLowest(
    before: map<string, Revision>, synced: map<string, Revision>, listed: seq<string>, live: set<string>,
    update: string, deleted: seq<string>)
    requires IsListing(before, listed) && deleted <= NonLive(listed, live) && update in live
    requires forall n :: n in before && n != update ==> n in synced && synced[n] == before[n]
    ensures forall d, n :: d in deleted && n in listed && n !in live && n !in deleted ==>
              && d in before && n in synced - Elems(deleted)
              && before[d].number <= (synced - Elems(deleted))[n].number
  {
    DeletedAreLowest(before, listed, live, deleted);
  }

  // ---- Writing a number ----

  /** How one attempt to write a revision ends; after a conflict it is read again, or that fails. */
  datatype Attempt = Stored | Conflict(reread: bool) | Failed

  datatype Outcome = Written | Pretended | GivenUp

  const WRITE_ATTEMPTS: nat := 4

  /** The retry loop. A clone that could not be read again still carries the new number, so the next
      attempt takes it for written. */
  function WriteOutcome(attempts: seq<Attempt>, left: nat): Outcome
    decreases left
  {
    if left == 0 then GivenUp
    else if attempts == [] || attempts[0].Stored? then Written
    else if attempts[0].Failed? then GivenUp
    else if attempts[0].reread then WriteOutcome(attempts[1..], left - 1)
    else if left == 1 then GivenUp
    else Pretended
  }

  /** Exactly when the number is stored: after conflicts that were all read again, an attempt that is
      stored, within the attempts there are. */
  lemma {:induction false} WrittenIff(attempts: seq<Attempt>, left: nat)
    ensures WriteOutcome(attempts, left) == Written <==>
            exists k :: 0 <= k < left && k <= |attempts| && StoredAt(attempts, k)
    decreases left
  {
    if left > 0 && attempts != [] {
      var rest := attempts[1..];
      WrittenIff(rest, left - 1);
      assert StoredAt(attempts, 0) <==> attempts[0] == Stored;
      forall k | 0 < k <= |attempts|
        ensures StoredAt(attempts, k) <==> attempts[0] == Conflict(true) && StoredAt(rest, k - 1)
      {
        StoredLater(attempts, k);
      }
      if k :| 0 <= k < left - 1 && k <= |rest| && StoredAt(rest, k) {
        assert attempts[0] == Conflict(true) ==> StoredAt(attempts, k + 1);
      }
    } else if left > 0 {
      assert StoredAt(attempts, 0);
    }
  }

  ghost predicate StoredAt(attempts: seq<Attempt>, k: nat)
    requires k <= |attempts|
  {
    (k == |attempts| || attempts[k] == Stored) && forall j :: 0 <= j < k ==> attempts[j] == Conflict(true)
  }

  lemma StoredLater(attempts: seq<Attempt>, k: nat)
    requires 0 < k <= |attempts|
    ensures StoredAt(attempts, k) <==> attempts[0] == Conflict(true) && StoredAt(attempts[1..], k - 1)
  {
    assert forall j :: 0 < j < k ==> attempts[j] == attempts[1..][j - 1];
  }

  /** Exactly when a write is reported that never happened: after conflicts that were read again,
      one that was not, with an attempt to spare. */
  lemma {:induction false} PretendedIff(attempts: seq<Attempt>, left: nat)
    ensures WriteOutcome(attempts, left) == Pretended <==>
            exists k :: 0 <= k < |attempts| && k < left - 1 && attempts[k] == Conflict(false)
                        && forall j :: 0 <= j < k ==> attempts[j] == Conflict(true)
    decreases left
  {
    if left > 0 && attempts != [] {
      var rest := attempts[1..];
      PretendedIff(rest, left - 1);
      if attempts[0] == Conflict(true) {
        if WriteOutcome(rest, left - 1) == Pretended {
          var k :| 0 <= k < |rest| && k < left - 2 && rest[k] == Conflict(false)
                   && forall j :: 0 <= j < k ==> rest[j] == Conflict(true);
          assert attempts[k + 1] == Conflict(false);
          assert forall j :: 0 < j < k + 1 ==> attempts[j] == rest[j - 1];
        }
        if k :| 0 <= k < |attempts| && k < left - 1 && attempts[k] == Conflict(false)
                && forall j :: 0 <= j < k ==> attempts[j] == Conflict(true) {
          assert rest[k - 1] == Conflict(false);
          assert forall j :: 0 <= j < k - 1 ==> rest[j] == attempts[j + 1];
        }
      } else if attempts[0] == Conflict(false) && left > 1 {
        assert attempts[0] == Conflict(false) && 0 < left - 1;
      }
    }
  }

  // ---- The store ----

  /** What may go wrong in one round of the create loop besides a name in use. */
  datatype Fault = NoFault | CreateFails | ReadFails

  function FaultAt(faults: seq<Fault>, i: nat): Fault { if i < |faults| then faults[i] else NoFault }

  /** Names of different counts differ, so none is met twice. */
  lemma NotTried(nodeSet: string, hash: Hash, data: string, tried: set<string>, count: nat)
    requires forall a: nat, b: nat :: hash(data, a) == hash(data, b) ==> a == b
    requires forall n :: n in tried ==> exists c: nat :: c < count && n == NameOf(nodeSet, hash(data, c))
    ensures NameOf(nodeSet, hash(data, count)) !in tried
  {
    forall c: nat | c < count ensures NameOf(nodeSet, hash(data, c)) != NameOf(nodeSet, hash(data, count)) {
      NameOfInjective(nodeSet, hash(data, c), hash(data, count));
    }
  }

  class RevisionStore {
    var store: map<string, Revision>

    /** The create loop: the first count whose name is free or already holds the data. An error of the
        API server other than a name in use ends it, with the count where it is. */
    method CreateControllerRevision(
      nodeSet: string, revision: Revision, hash: Hash, collisionCount: nat, faults: seq<Fault>)
      returns (ok: bool, name: string, count: nat)
      requires forall a: nat, b: nat :: hash(revision.data, a) == hash(revision.data, b) ==> a == b
      modifies this
      ensures count >= collisionCount && name == NameOf(nodeSet, hash(revision.data, count))
      ensures forall c :: collisionCount <= c < count ==>
                Taken(old(store), NameOf(nodeSet, hash(revision.data, c)), revision.data)
      ensures ok ==> !Taken(old(store), name, revision.data)
      ensures store == if !ok || name in old(store) then old(store) else old(store)[name := revision]
      ensures !ok <==> FaultAt(faults, count - collisionCount).CreateFails?
                       || (name in old(store) && FaultAt(faults, count - collisionCount).ReadFails?)
    {
      count := collisionCount;
      ghost var tried := {};
      while true
        invariant count >= collisionCount && store == old(store)
        invariant forall c :: collisionCount <= c < count ==>
                    Taken(store, NameOf(nodeSet, hash(revision.data, c)), revision.data)
        invariant forall n :: n in tried ==> exists c: nat :: c < count && n == NameOf(nodeSet, hash(revision.data, c))
        invariant tried <= store.Keys
        decreases store.Keys - tried
      {
        name := NameOf(nodeSet, hash(revision.data, count));
        var fault := FaultAt(faults, count - collisionCount);
        if fault.CreateFails? { return false, name, count; }
        if name !in store {
          store := store[name := revision];
          return true, name, count;
        }
        if fault.ReadFails? { return false, name, count; }
        if store[name].data == revision.data { return true, name, count; }
        NotTried(nodeSet, hash, revision.data, tried, count);
        tried := tried + {name};
        count := count + 1;
      }
    }

    /** UpdateControllerRevision: `attempts` is how its writes go. */
    method UpdateControllerRevision(name: string, number: int, attempts: seq<Attempt>) returns (ok: bool)
      requires name in store && store[name].number != number
      modifies this
      ensures ok <==> WriteOutcome(attempts, 4) != GivenUp
      ensures store == if WriteOutcome(attempts, 4) == Written
                       then old(store)[name := old(store)[name].(number := number)] else old(store)
    {
      var clone := store[name];
      var left := WRITE_ATTEMPTS;
      var rest := attempts;
      while left > 0
        invariant store == old(store) && 0 <= left <= WRITE_ATTEMPTS && name in store
        invariant clone == store[name] ==> WriteOutcome(attempts, WRITE_ATTEMPTS) == WriteOutcome(rest, left)
        invariant clone != store[name] ==>
                    clone.number == number
                    && WriteOutcome(attempts, WRITE_ATTEMPTS) == (if left == 0 then GivenUp else Pretended)
      {
        if clone.number == number { return true; }
        clone := clone.(number := number);
        if rest == [] || rest[0].Stored? {
          store := store[name := clone];
          return true;
        }
        if rest[0].Failed? { return false; }
        if rest[0].reread { clone := store[name]; }
        rest := rest[1..];
        left := left - 1;
      }
      ok := false;
    }

    /** getNodeSetRevisions, every stored revision being listed. */
    method GetNodeSetRevisions(
      nodeSet: string, listed: seq<string>, data: string, hash: Hash, statusHash: string, collisionCount: nat,
      attempts: seq<Attempt>, faults: seq<Fault>)
      returns (ok: bool, current: string, update: string, count: nat)
      requires IsListing(store, listed)
      requires forall a: nat, b: nat :: hash(data, a) == hash(data, b) ==> a == b
      modifies this
      ensures !ok ==> store == old(store)
      ensures !ok ==> WriteOutcome(attempts, WRITE_ATTEMPTS) == GivenUp || faults != []
      ensures ok && WellFormed(old(store)) ==>
                Synced(old(store), store, data, update)
                || (store == old(store) && WriteOutcome(attempts, WRITE_ATTEMPTS) == Pretended)
      ensures ok ==> update in store && store[update].data == data && count >= collisionCount
      ensures ok ==> current == if statusHash in old(store) then statusHash else update
      ensures ok && count > collisionCount ==> Taken(old(store), NameOf(nodeSet, store[update].hashLabel), data)
      ensures ok && update !in old(store) ==>
                store[update].hashLabel == hash(data, collisionCount) && update == NameOf(nodeSet, hash(data, count))
    {
      var next := NextRevision(store, listed);
      count := collisionCount;
      ok, current := true, "";
      var equal := Equal(store, listed, data);
      ghost var before := store;
      if |equal| > 0 {
        var last := listed[|listed| - 1];
        assert equal[|equal| - 1] in equal;
        LastIsNewest(store, listed);
        if store[last].data == store[equal[|equal| - 1]].data {
          update := last;
        } else {
          update := equal[|equal| - 1];
          NextIsAbove(store, next);
          ok := UpdateControllerRevision(update, next, attempts);
          if !ok { return; }
        }
      } else {
        assert forall n :: n in store ==> store[n].data != data by {
          forall n | n in store ensures store[n].data != data { assert n !in equal; }
        }
        var revision := Revision(next, data, hash(data, collisionCount));
        ok, update, count := CreateControllerRevision(nodeSet, revision, hash, collisionCount, faults);
        if !ok { return; }
        assert update !in before;
      }
      current := CurrentRevision(listed, statusHash, update);
      if Looked(before, store, data, update, next, hash(data, collisionCount)) {
        LookedIsSynced(before, store, data, update, next, hash(data, collisionCount));
      }
    }

    /** truncateHistory. The listing may be older than the store. Deletions stop at the first that
        fails, here after `deletable` of them. A negative limit makes the slice reach past the
        non-live revisions: beyond the listing it panics at once, otherwise all of them go first. */
    method TruncateHistory(
      listed: seq<string>, current: string, update: string, podLabels: seq<string>, limit: int, deletable: nat)
      returns (ok: bool, deleted: seq<string>)
      modifies this
      ensures var history := NonLive(listed, LiveNames(current, update, podLabels));
              && deleted <= history && |deleted| == Deletions(listed, history, limit, deletable)
              && (ok <==> limit >= 0 && |history| - limit <= deletable)
              && (ok ==> |deleted| == Surplus(listed, LiveNames(current, update, podLabels), limit))
      ensures store == old(store) - Elems(deleted)
      ensures SparesLive(current, update, podLabels, deleted)
      ensures Truncated(old(store), store, update)
    {
      var live := MarkLive(current, update, podLabels);
      var history := CollectNonLive(listed, live);
      deleted := [];
      assert Elems(deleted) == {};
      if |history| <= limit { return true, []; }
      if |history| - limit > |listed| { return false, []; }
      var surplus := |history| - limit;
      while |deleted| < surplus
        invariant |deleted| <= surplus && |deleted| <= |history| && |deleted| <= deletable
        invariant deleted == history[..|deleted|]
        invariant store == old(store) - Elems(deleted)
        invariant SparesLive(current, update, podLabels, deleted)
      {
        if |deleted| == |history| || |deleted| == deletable { return false, deleted; }
        var name := history[|deleted|];
        assert name in history;
        assert Elems(deleted + [name]) == Elems(deleted) + {name};
        store := store - {name};
        deleted := deleted + [name];
      }
      ok := true;
    }

    /** The history side of one reconcile: whatever is truncated, the invariant holds, the template's
        revision is the newest unless its number was not written, and the revisions deleted are the
        lowest numbered of those that are not live. */
    method ReconcileHistory(
      nodeSet: string, listed: seq<string>, data: string, hash: Hash, statusHash: string, collisionCount: nat,
      attempts: seq<Attempt>, faults: seq<Fault>, podLabels: seq<string>, limit: int, deletable: nat)
      returns (ok: bool, current: string, update: string, count: nat, deleted: seq<string>)
      requires IsListing(store, listed) && WellFormed(store)
      requires forall a: nat, b: nat :: hash(data, a) == hash(data, b) ==> a == b
      modifies this
      ensures WellFormed(store)
      ensures !ok ==> store == old(store) && deleted == []
      ensures ok && WriteOutcome(attempts, WRITE_ATTEMPTS) != Pretended ==> Newest(store, update)
      ensures ok ==> update in store && store[update].data == data && count >= collisionCount
      ensures forall d, n :: d in deleted && n !in deleted
                             && n in listed && n !in LiveNames(current, update, podLabels) ==>
                d in old(store) && n in store && old(store)[d].number <= store[n].number
    {
      ghost var before := store;
      deleted := [];
      ok, current, update, count := 
        GetNodeSetRevisions(nodeSet, listed, data, hash, statusHash, collisionCount, attempts, faults);
      if !ok { return; }
      ghost var synced := store;
      if Synced(before, store, data, update) { SyncedKeeps(before, store, data, update); }
      OthersKept(before, synced, data, update);
      var done;
      done, deleted := TruncateHistory(listed, current, update, podLabels, limit, deletable);
      TruncatedKeeps(synced, store, update);
      StillLowest(before, synced, listed, LiveNames(current, update, podLabels), update, deleted);
    }
  }

  /** The three things a lookup may do. */
  ghost predicate Looked(
    before: map<string, Revision>, after: map<string, Revision>, data: string, update: string, next: int,
    hashLabel: string)
  {
    if update in before then
      && before[update].data == data
      && (if Newest(before, update) then after == before else Renumbered(before, after, update, next))
    else
      && (forall n :: n in before ==> before[n].data != data)
      && Created(before, after, update, Revision(next, data, hashLabel))
  }

  lemma LookedIsSynced(
    before: map<string, Revision>, after: map<string, Revision>, data: string, update: string, next: int,
    hashLabel: string)
    requires IsNext(before, next) && Looked(before, after, data, update, next, hashLabel)
    ensures Synced(before, after, data, update)
  {
  }

  lemma OthersKept(before: map<string, Revision>, after: map<string, Revision>, data: string, update: string)
    requires after == before || Synced(before, after, data, update)
    ensures forall n :: n in before && n != update ==> n in after && after[n] == before[n]
  {
  }

  ghost predicate Taken(store: map<string, Revision>, name: string, data: string) {
    name in store && store[name].data != data
  }

  /** Names taken for live: the current and update revisions', and the hash labels of pods. */
  function LiveNames(current: string, update: string, podLabels: seq<string>): set<string> {
    {current, update} + set l | l in podLabels
  }

  /** Neither the current nor the update revision goes, nor one whose name a pod carries. */
  ghost predicate SparesLive(current: string, update: string, podLabels: seq<string>, deleted: seq<string>) {
    current !in deleted && update !in deleted && forall l :: l in podLabels ==> l !in deleted
  }

  /** How many deletions truncation carries out. */
  function Deletions(listed: seq<string>, history: seq<string>, limit: int, deletable: nat): (k: nat)
    ensures k <= |history|
  {
    var surplus := |history| - limit;
    if surplus <= 0 || (limit < 0 && surplus > |listed|) then 0
    else if limit < 0 then (if |history| <= deletable then |history| else deletable)
    else if surplus <= deletable then surplus else deletable
  }

  /** A revision that every pod runs, and that is neither current nor update, is live exactly when
      its hash label is its very name, as adoption writes it where the label was missing. */
  lemma PodsProtectIff(listed: seq<string>, name: string, hashLabel: string, update: string, podLabels: seq<string>)
    requires name in listed && update != name && podLabels != []
    requires forall l :: l in podLabels ==> l == hashLabel
    ensures name !in NonLive(listed, LiveNames(update, update, podLabels)) <==> hashLabel == name
  {
    assert podLabels[0] in podLabels;
  }

  /** A revision the operator created is not named by its hash label, so pods do not keep it: with no
      history limit to spare, it is removed while every pod still runs it. */
  lemma PodsDoNotProtect(nodeSet: string, listed: seq<string>, hash: string, update: string, podLabels: seq<string>)
    requires NameOf(nodeSet, hash) in listed && update != NameOf(nodeSet, hash)
    requires forall l :: l in podLabels ==> l == hash
    ensures var history := NonLive(listed, LiveNames(update, update, podLabels));
            NameOf(nodeSet, hash) in history[..Surplus(listed, LiveNames(update, update, podLabels), 0)]
  {
    assert |NameOf(nodeSet, hash)| > |hash|;
    var history := NonLive(listed, LiveNames(update, update, podLabels));
    assert history[..|history|] == history;
  }

  /** The listed revision named by the status, or the update revision. */
  method CurrentRevision(listed: seq<string>, statusHash: string, update: string) returns (current: string)
    ensures current == if statusHash in listed then statusHash else update
  {
    for i := 0 to |listed|
      invariant forall k :: 0 <= k < i ==> listed[k] != statusHash
    {
      if listed[i] == statusHash { return listed[i]; }
    }
    current := update;
  }

  method MarkLive(current: string, update: string, podLabels: seq<string>) returns (live: set<string>)
    ensures live == LiveNames(current, update, podLabels)
  {
    live := {current, update};
    for i := 0 to |podLabels|
      invariant live == LiveNames(current, update, podLabels[..i])
    {
      assert podLabels[..i + 1] == podLabels[..i] + [podLabels[i]];
      live := live + {podLabels[i]};
    }
    assert podLabels[..|podLabels|] == podLabels;
  }

  method CollectNonLive(listed: seq<string>, live: set<string>) returns (r: seq<string>)
    ensures r == NonLive(listed, live)
  {
    r := [];
    for i := 0 to |listed|
      invariant r == NonLive(listed[..i], live)
    {
      assert listed[..i + 1][..i] == listed[..i];
      if listed[i] !in live { r := r + [listed[i]]; }
    }
    assert listed[..|listed|] == listed;
  }

  lemma LastIsNewest(store: map<string, Revision>, listed: seq<string>)
    requires IsListing(store, listed) && listed != []
    ensures Newest(store, listed[|listed| - 1])
  {
    var last := listed[|listed| - 1];
    forall n | n in store ensures store[n].number <= store[last].number {
      var i :| 0 <= i < |listed| && listed[i] == n;
    }
  }
}
