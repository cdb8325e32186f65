/** The operator's side of the scaling protocol as the mutable object it is: event handlers
    that lower shared expectations, and the scale-out that creates pods in batches. Every
    method is a run of the protocol in ScaleOut. */
module ScaleController {
  import opened MathUtils
  import opened Names
  import opened Ordinals
  import opened ScaleOut
  import opened Sets
  import SlowStart

  /** The ordinals from index `n` on. */
  ghost function Rest(ordinals: seq<nat>, n: nat): set<int> {
    set i | n <= i < |ordinals| :: ordinals[i]
  }

  lemma {:induction false} RunAppend(s: State, es: seq<Event>, e: Event)
    ensures Run(s, es + [e]) == Step(Run(s, es), e)
    decreases |es|
  {
    if es == [] {
      assert [e][1..] == [];
      assert es + [e] == [e];
    } else {
      assert (es + [e])[1..] == es[1..] + [e];
      RunAppend(Step(s, es[0]), es[1..], e);
    }
  }

  /** The events of one scale-out whose first `n` create requests were sent. */
  ghost function Creates(ordinals: seq<nat>, outcomes: seq<Outcome>, n: nat): (es: seq<Event>)
    requires n <= |ordinals| == |outcomes|
    ensures |es| == n + 1
  {
    if n == 0 then [ScaleOut]
    else Creates(ordinals, outcomes, n - 1) + [CreatePod(ordinals[n - 1], outcomes[n - 1])]
  }

  /** The state after the first `n` create requests. */
  ghost function Sent(s: State, ordinals: seq<nat>, outcomes: seq<Outcome>, n: nat): State
    requires n <= |ordinals| == |outcomes|
  {
    if n == 0 then s else
      var t := Sent(s, ordinals, outcomes, n - 1);
      if t.phase.Creating? && ordinals[n - 1] in t.phase.todo
      then CreateRequest(t, ordinals[n - 1], outcomes[n - 1]) else t
  }

  ghost predicate Requested(s: State, ordinal: int, outcome: Outcome, t: State) {
    s.phase.Creating? && ordinal in s.phase.todo && t == CreateRequest(s, ordinal, outcome)
  }

  lemma SentNext(s: State, ordinals: seq<nat>, outcomes: seq<Outcome>, n: nat, before: State, after: State)
    requires n < |ordinals| == |outcomes| && before == Sent(s, ordinals, outcomes, n)
    requires Requested(before, ordinals[n], outcomes[n], after)
    ensures after == Sent(s, ordinals, outcomes, n + 1)
  {
  }

  lemma {:induction false} SentIsRun(s: State, ordinals: seq<nat>, outcomes: seq<Outcome>, n: nat)
    requires n <= |ordinals| == |outcomes|
    ensures Run(s, Creates(ordinals, outcomes, n)) == Sent(Step(s, ScaleOut), ordinals, outcomes, n)
  {
    if n == 0 {
      assert [ScaleOut][1..] == [];
      assert Run(s, [ScaleOut]) == Run(Step(s, ScaleOut), []);
    } else {
      SentIsRun(s, ordinals, outcomes, n - 1);
      RunAppend(s, Creates(ordinals, outcomes, n - 1), CreatePod(ordinals[n - 1], outcomes[n - 1]));
    }
  }

  /** Raising the expectations, sending `n` requests and giving back the rest is a run. */
  lemma ScaleUpIsRun(s: State, ordinals: seq<nat>, outcomes: seq<Outcome>, n: nat, granted: nat, failed: bool, t: State)
    requires s.phase.Listed? && |s.phase.view| < s.phase.want
    requires |ordinals| == NumCreate(s.phase.view, s.phase.want) && n <= |ordinals| == |outcomes|
    requires Elems(ordinals) == Planned(s.phase.view, s.phase.want)
    requires granted <= |ordinals| && (n == |ordinals| || failed)
    requires var made := Sent(Raised(s, ordinals), ordinals, outcomes, n);
             && made.phase == Creating(Rest(ordinals, n), |ordinals|, granted, failed, s.phase.width)
             && t == made.(exp := made.exp.Lower(|ordinals| - granted), phase := if failed then Idle else Synced)
    ensures t == Run(s, Creates(ordinals, outcomes, n) + [FinishCreates])
  {
    assert Raised(s, ordinals) == Step(s, ScaleOut);
    SentIsRun(s, ordinals, outcomes, n);
    RunAppend(s, Creates(ordinals, outcomes, n), FinishCreates);
    assert n == |ordinals| ==> Rest(ordinals, n) == {};
  }

  /** The state in which the create expectations have been raised. */
  ghost function Raised(s: State, ordinals: seq<nat>): State
    requires s.phase.Listed?
  {
    s.(exp := Expectations(|ordinals|, 0, {}), phase := Creating(Elems(ordinals), |ordinals|, 0, false, s.phase.width))
  }

  /** A state in which the first `n` create requests of a plan have been sent, `granted` of them
      without error. */
  ghost predicate SentSoFar(
    s: State, start: State, ordinals: seq<nat>, width: nat, outcomes: seq<Outcome>, n: nat, granted: nat, failed: bool)
  {
    && n <= |ordinals| == |outcomes|
    && s.phase == Creating(Rest(ordinals, n), |ordinals|, granted, failed, width)
    && s == Sent(start, ordinals, outcomes, n)
  }

  class NodeSetController {
    var api: set<Pod>
    var cache: set<Pod>
    var inflight: set<Pod>
    var nextUid: nat
    var adds: int
    var dels: int
    var keys: set<string>
    var replicas: nat
    var padding: nat
    ghost var original: set<Pod>
    ghost var peak: nat
    ghost var phase: Phase

    ghost function Abs(): State
      reads this
    {
      State(api, cache, inflight, original, nextUid, Expectations(adds, dels, keys), replicas, padding, peak, phase)
    }

    /** An operator that has listed the pods there are and expects nothing. */
    constructor (pods: set<Pod>, replicas: nat, padding: nat, nextUid: nat)
      requires UniqueNames(pods) && forall p :: p in pods ==> p.uid < nextUid
      ensures Init(Abs()) && Abs().api == pods && Abs().replicas == replicas && Abs().padding == padding
    {
      this.api, this.cache, this.inflight, this.nextUid := pods, pods, {}, nextUid;
      this.adds, this.dels, this.keys := 0, 0, {};
      this.replicas, this.padding, this.original, this.peak := replicas, padding, pods, Max(|pods|, replicas);
      this.phase := Idle;
    }

    method DeletionObserved(key: string)
      modifies this`dels, this`keys
      ensures Abs() == old(Abs()).(exp := old(Abs()).exp.DeletionObserved(key))
    {
      if key in keys {
        dels := dels - 1;
        keys := keys - {key};
      }
    }

    /** createPod: the create event of a pod; one that is already being deleted counts as a deletion. */
    method PodCreated(pod: Pod, terminating: bool)
      requires pod in inflight
      modifies this
      ensures Abs() == Step(old(Abs()), if terminating then CreateSeenTerminating(pod) else CreateSeen(pod))
    {
      inflight, cache := inflight - {pod}, cache + {pod};
      if terminating {
        DeletionObserved(pod.name);
      } else {
        adds := adds - 1;
      }
    }

    /** updatePod for a pod that has got its deletion timestamp. */
    method PodTerminating(pod: Pod)
      requires pod in cache
      modifies this
      ensures Abs() == Step(old(Abs()), TerminatingSeen(pod))
    {
      DeletionObserved(pod.name);
    }

    /** deletePod: the delete event of a pod. */
    method PodDeleted(pod: Pod)
      requires pod in cache && pod !in api
      modifies this
      ensures Abs() == Step(old(Abs()), DeleteSeen(pod))
    {
      cache := cache - {pod};
      DeletionObserved(pod.name);
    }

    /** One create request; `err` is what the caller is told. */
    method CreateNodeSetPod(ordinal: nat, width: nat, outcome: Outcome) returns (err: bool)
      requires phase.Creating? && ordinal in phase.todo && phase.width == width
      modifies this`api, this`inflight, this`nextUid, this`phase
      ensures Requested(old(Abs()), ordinal, outcome, Abs())
      ensures phase.Creating? && phase.failed == (old(phase.failed) || err)
      ensures phase.granted == old(phase.granted) + (if err then 0 else 1)
      ensures phase.total == old(phase.total) && phase.todo == old(phase.todo) - {ordinal}
      ensures phase.width == old(phase.width)
    {
      var name := PaddedOrdinal(width, ordinal);
      var taken := exists p :: p in api && p.name == name;
      assert taken <==> name in NamesOf(api);
      err := taken || outcome.Rejected? || outcome.CreatedThenFailed?;
      if !taken && (outcome.Created? || outcome.CreatedThenFailed?) {
        var pod := Pod(nextUid, ordinal, name);
        api, inflight, nextUid := api + {pod}, inflight + {pod}, nextUid + 1;
      }
      phase := Creating(phase.todo - {ordinal}, phase.total, phase.granted + (if err then 0 else 1),
                        phase.failed || err, width);
    }

    /** The create request at index `n` of the plan. */
    method CreateNext(
      ghost start: State, ordinals: seq<nat>, width: nat, outcomes: seq<Outcome>, n: nat, ghost granted: nat,
      ghost failed: bool)
      returns (err: bool)
      requires Increasing(ordinals) && n < |ordinals| == |outcomes|
      requires SentSoFar(Abs(), start, ordinals, width, outcomes, n, granted, failed)
      modifies this`api, this`inflight, this`nextUid, this`phase
      ensures SentSoFar(
                Abs(), start, ordinals, width, outcomes, n + 1, if err then granted else granted + 1, failed || err)
    {
      NoRepeat(ordinals, n);
      ghost var before := Abs();
      err := CreateNodeSetPod(ordinals[n], width, outcomes[n]);
      SentNext(start, ordinals, outcomes, n, before, Abs());
    }

    /** One slow-start batch of create requests, the ordinals from `first` on. */
    method CreateBatch(
      ghost start: State, ordinals: seq<nat>, width: nat, outcomes: seq<Outcome>, first: nat, size: nat,
      ghost granted: nat)
      returns (errs: nat)
      requires Increasing(ordinals) && first + size <= |ordinals| == |outcomes|
      requires SentSoFar(Abs(), start, ordinals, width, outcomes, first, granted, false)
      modifies this`api, this`inflight, this`nextUid, this`phase
      ensures errs <= size
      ensures SentSoFar(Abs(), start, ordinals, width, outcomes, first + size, granted + size - errs, errs > 0)
    {
      errs := 0;
      var n := first;
      ghost var g, f := granted, false;
      while n < first + size
        invariant first <= n <= first + size && errs <= n - first
        invariant g == granted + (n - first) - errs && f == (errs > 0)
        invariant SentSoFar(Abs(), start, ordinals, width, outcomes, n, g, f)
      {
        var err := CreateNext(start, ordinals, width, outcomes, n, g, f);
        if err { errs := errs + 1; f := true; } else { g := g + 1; }
        n := n + 1;
      }
    }

    /** All batches of a scale-out whose expectations have been raised. */
    method CreateAll(ghost start: State, ordinals: seq<nat>, width: nat, outcomes: seq<Outcome>)
      returns (sent: nat, successes: nat, failed: bool)
      requires Increasing(ordinals) && |ordinals| == |outcomes| > 0
      requires SentSoFar(Abs(), start, ordinals, width, outcomes, 0, 0, false)
      modifies this`api, this`inflight, this`nextUid, this`phase
      ensures sent <= |ordinals| && (!failed ==> sent == |ordinals|) && successes <= sent
      ensures SentSoFar(Abs(), start, ordinals, width, outcomes, sent, successes, failed)
      ensures InBatches(|ordinals|, sent, successes)
    {
      ghost var batch: nat := 0;
      sent, successes, failed := 0, 0, false;
      var remaining: nat := |ordinals|;
      var batchSize: nat := SlowStart.INITIAL_BATCH_SIZE;
      while batchSize > 0 && !failed
        invariant Batching(|ordinals|, sent, remaining, batchSize, successes, failed, batch)
        invariant SentSoFar(Abs(), start, ordinals, width, outcomes, sent, successes, failed)
        decreases remaining
      {
        var errs := CreateBatch(start, ordinals, width, outcomes, sent, batchSize, successes);
        NextBatch(|ordinals|, sent, remaining, batchSize, successes, batch, errs);
        successes := successes + batchSize - errs;
        failed := errs > 0;
        sent := sent + batchSize;
        remaining := remaining - batchSize;
        batch := batch + 1;
        batchSize := if 2 * batchSize < remaining then 2 * batchSize else remaining;
      }
    }

    /** The plan of a scale-out: the ordinals to create, and the expectations raised for them. */
    method BeginScaleUp(view: set<Pod>, want: nat, width: nat) returns (ordinals: seq<nat>)
      requires phase == Listed(view, want, width) && |view| < want
      modifies this`adds, this`dels, this`keys, this`phase
      ensures ordinals == LeastFree(Ords(view), want - |view|)[..NumCreate(view, want)]
      ensures Increasing(ordinals) && |ordinals| == NumCreate(view, want)
      ensures Abs() == Raised(old(Abs()), ordinals)
    {
      var podsToCreate := AllocateOrdinals(Ords(view), want - |view|);
      ordinals := podsToCreate[..NumCreate(view, want)];
      adds, dels, keys := 0, 0, {};
      adds := adds + |ordinals|;
      phase := Creating(Elems(ordinals), |ordinals|, 0, false, width);
    }

    /** The create branch of doPodScale, after the list of pods has passed the gate. */
    method ScaleUp(view: set<Pod>, want: nat, width: nat, outcomes: seq<Outcome>)
      returns (ordinals: seq<nat>, sent: nat)
      requires phase == Listed(view, want, width) && |view| < want
      requires |outcomes| == NumCreate(view, want)
      modifies this
      ensures sent <= |ordinals| == NumCreate(view, want)
      ensures ordinals == LeastFree(Ords(view), want - |view|)[..NumCreate(view, want)]
      ensures Abs() == Run(old(Abs()), Creates(ordinals, outcomes, sent) + [FinishCreates])
      ensures phase == Idle || (phase == Synced && sent == |ordinals|)
      ensures exists successes: nat :: InBatches(|ordinals|, sent, successes)
    {
      ordinals := BeginScaleUp(view, want, width);
      var successes, failed;
      NothingSent(Abs(), ordinals, width, outcomes);
      sent, successes, failed := CreateAll(Abs(), ordinals, width, outcomes);
      var skipped := |ordinals| - successes;
      adds := adds - skipped;
      phase := if failed then Idle else Synced;
      ScaleUpIsRun(old(Abs()), ordinals, outcomes, sent, successes, failed, Abs());
    }
  }

  /** The requests end with a batch, the batches doubling from one, and those before it succeeded. */
  ghost predicate InBatches(count: nat, sent: nat, successes: nat) {
    exists j: nat :: InBatch(count, sent, successes, j)
  }

  ghost predicate InBatch(count: nat, sent: nat, successes: nat, j: nat) {
    sent == Min(count, SlowStart.Ends(1, j) + SlowStart.Size(1, j)) && SlowStart.Ends(1, j) <= successes
  }

  lemma NothingSent(s: State, ordinals: seq<nat>, width: nat, outcomes: seq<Outcome>)
    requires |ordinals| == |outcomes| && s.phase == Creating(Elems(ordinals), |ordinals|, 0, false, width)
    ensures SentSoFar(s, s, ordinals, width, outcomes, 0, 0, false)
  {
    assert Rest(ordinals, 0) == Elems(ordinals);
  }

  /** The state of the batch loop with batch `j` next, if any is. */
  ghost predicate Batching(
    count: nat, sent: nat, remaining: nat, size: nat, successes: nat, failed: bool, j: nat)
  {
    && sent + remaining == count && size <= remaining && successes <= sent
    && (remaining > 0 && !failed ==> size > 0)
    && (if failed || size == 0 then InBatches(count, sent, successes)
        else sent == successes == SlowStart.Ends(1, j) && size == Min(SlowStart.Size(1, j), remaining))
  }

  lemma NextBatch(count: nat, sent: nat, remaining: nat, size: nat, successes: nat, j: nat, errs: nat)
    requires Batching(count, sent, remaining, size, successes, false, j) && errs <= size && size > 0
    ensures var left := remaining - size;
            Batching(count, sent + size, left, if 2 * size < left then 2 * size else left,
                     successes + size - errs, errs > 0, j + 1)
  {
    assert InBatch(count, sent + size, successes + size - errs, j);
  }

  ghost predicate Increasing(s: seq<nat>) {
    forall i, j :: 0 <= i < j < |s| ==> s[i] < s[j]
  }

  lemma NoRepeat(s: seq<nat>, n: nat)
    requires n < |s| && Increasing(s)
    ensures s[n] in Rest(s, n)
    ensures Rest(s, n) - {s[n]} == Rest(s, n + 1)
  {
    assert forall i :: n < i < |s| ==> s[n] < s[i];
  }
}
