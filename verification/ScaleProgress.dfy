/** That the gate opens again: in ordinary runs it is shut exactly while something is outstanding, a
    scale-out whose pods have been observed lists them all, and a scale-in waits for its deletions. */
module ScaleProgress {
  import opened MathUtils
  import opened Names
  import opened NodeSets
  import opened Ordinals
  import opened ScaleOut
  import opened Sets

  /** Events that leave a create expected that no create event will ever answer. */
  predicate LosesCreate(e: Event) {
    || e.UncordonFails? || e.CreateMissed? || e.CreateSeenTerminating?
    || (e.CreatePod? && e.outcome.NamespaceGone?)
  }

  ghost predicate Ordinary(es: seq<Event>) { forall e :: e in es ==> !Hazard(e) && !LosesCreate(e) }

  /** Expected is exactly what is outstanding. */
  ghost predicate Exact(s: State) {
    && Tracked(s)
    && s.exp.adds == |s.inflight| + Owed(s.phase)
    && s.exp.dels == |s.exp.keys|
    && (forall p :: p in s.inflight ==> p.uid < s.nextUid)
    && (s.phase.Listed? ==> s.exp.keys == {})
  }

  lemma ExactInformer(s: State, e: Event)
    requires Exact(s) && !LosesCreate(e)
    ensures Exact(Informer(s, e))
  {
    TrackedInformer(s, e);
  }

  lemma ExactCreate(s: State, o: int, outcome: Outcome)
    requires Exact(s) && s.phase.Creating? && o in s.phase.todo
    requires !outcome.CreatedThenFailed? && !outcome.NamespaceGone?
    ensures Exact(CreateRequest(s, o, outcome))
  {
    TrackedCreate(s, o, outcome);
  }

  lemma ExactOperator(s: State, e: Event)
    requires Exact(s) && !Hazard(e) && !LosesCreate(e)
    ensures Exact(Operator(s, e))
  {
    TrackedOperator(s, e);
    if e.CreatePod? && s.phase.Creating? && e.ordinal in s.phase.todo { ExactCreate(s, e.ordinal, e.outcome); }
  }

  lemma ExactStep(s: State, e: Event)
    requires Exact(s) && !Hazard(e) && !LosesCreate(e)
    ensures Exact(Step(s, e))
  {
    TrackedStep(s, e);
    ExactInformer(s, e);
    ExactOperator(Informer(s, e), e);
  }

  lemma {:induction false} ExactRun(s: State, es: seq<Event>)
    requires Exact(s) && Ordinary(es)
    ensures Exact(Run(s, es))
    decreases |es|
  {
    if es != [] {
      ExactStep(s, es[0]);
      ExactRun(Step(s, es[0]), es[1..]);
    }
  }

  /** The gate is open exactly when nothing is outstanding: in every ordinary run the expectations are
      satisfied if and only if every created pod has been observed, no create is owed, and every
      expected deletion has been observed. */
  lemma GateOpenIff(s: State, es: seq<Event>)
    requires Init(s) && Ordinary(es)
    ensures var t := Run(s, es);
            t.exp.Satisfied() <==> t.inflight == {} && Owed(t.phase) == 0 && t.exp.keys == {}
  {
    InitBounded(s);
    ExactRun(s, es);
  }

  // ---- Creates that fail ----

  /** A create that is rejected ends the reconcile, and what was not created is expected no longer. */
  lemma RejectedGivesBack(s: State, o: int)
    requires Exact(s) && s.phase.Creating? && o in s.phase.todo
    ensures var t := Step(Step(s, CreatePod(o, Rejected)), FinishCreates);
            t.phase == Idle && t.exp.adds == |t.inflight| && t.api == s.api && t.inflight == s.inflight
  {
    RejectedFails(s, o);
    FailureEnds(Step(s, CreatePod(o, Rejected)));
  }

  lemma RejectedFails(s: State, o: int)
    requires Exact(s) && s.phase.Creating? && o in s.phase.todo
    ensures var t := Step(s, CreatePod(o, Rejected));
            Exact(t) && t.phase.Creating? && t.phase.failed && t.api == s.api && t.inflight == s.inflight
  {
    ExactCreate(s, o, Rejected);
  }

  lemma FailureEnds(s: State)
    requires Exact(s) && s.phase.Creating? && s.phase.failed
    ensures var t := Step(s, FinishCreates);
            t.phase == Idle && t.exp.adds == |t.inflight| && t.api == s.api && t.inflight == s.inflight
  {
  }

  /** A create that is taken for done because the namespace is going leaves one create expected that
      nothing will answer. */
  lemma NamespaceGoneIsOwed(s: State, o: int)
    requires Exact(s) && s.phase.Creating? && o in s.phase.todo
    requires PaddedOrdinal(s.phase.width, o) !in NamesOf(s.api)
    ensures var t := Step(s, CreatePod(o, NamespaceGone));
            t.exp.adds == |t.inflight| + Owed(t.phase) + 1 && t.api == s.api
  {
  }

  // ---- Observing deletions ----

  /** Events that show the deletion of the pod of that name, or give its expectation back. */
  predicate ShowsDeletion(e: Event, name: string) {
    || (e.CreateSeenTerminating? && e.pod.name == name) || (e.TerminatingSeen? && e.pod.name == name)
    || (e.DeleteSeen? && e.pod.name == name) || (e.CondemnedSkipped? && e.key == name)
  }

  /** The pod concerned is one the informer can tell of. */
  predicate Happens(s: State, e: Event) {
    && (e.CreateSeenTerminating? ==> e.pod in s.inflight)
    && (e.TerminatingSeen? ==> e.pod in s.cache)
    && (e.DeleteSeen? ==> e.pod in s.cache && e.pod !in s.api)
  }

  /** Each of them settles that name, once, and no other. */
  lemma DeletionSettles(s: State, e: Event, name: string)
    requires ShowsDeletion(e, name) && Happens(s, e)
    ensures Step(s, e).exp.keys == s.exp.keys - {name}
    ensures Step(s, e).exp.dels == s.exp.dels - (if name in s.exp.keys then 1 else 0)
  {
  }

  ghost predicate Waiting(s: State, name: string) {
    name in s.exp.keys && s.exp.dels == |s.exp.keys| && (s.phase.Synced? || s.phase.Idle?)
  }

  lemma WaitingStep(s: State, e: Event, name: string)
    requires Waiting(s, name) && !Hazard(e) && !e.Restart? && !ShowsDeletion(e, name)
    ensures Waiting(Step(s, e), name) && Step(s, e).api <= s.api
  {
    assert |s.exp.keys| > 0;
  }

  lemma {:induction false} WaitingRun(s: State, es: seq<Event>, name: string)
    requires Waiting(s, name)
    requires forall e :: e in es ==> !Hazard(e) && !e.Restart? && !ShowsDeletion(e, name)
    ensures Waiting(Run(s, es), name) && Run(s, es).api <= s.api
    decreases |es|
  {
    if es != [] {
      WaitingStep(s, es[0], name);
      WaitingRun(Step(s, es[0]), es[1..], name);
    }
  }

  /** A scale-in waits: until the deletion of every condemned pod has been observed or given up, no
      reconcile passes the gate and no pod is created. */
  lemma ScaleInWaits(s: State, condemned: set<string>, name: string, es: seq<Event>)
    requires s.phase.Listed? && |s.phase.view| > s.phase.want && name in condemned
    requires forall e :: e in es ==> !Hazard(e) && !e.Restart? && !ShowsDeletion(e, name)
    ensures var t := Run(s, [ScaleIn(condemned)] + es);
            !t.exp.Satisfied() && !t.phase.Listed? && t.api <= s.api
  {
    RunCons(s, ScaleIn(condemned), es);
    WaitingRun(Step(s, ScaleIn(condemned)), es, name);
    assert |Run(s, [ScaleIn(condemned)] + es).exp.keys| > 0;
  }

  /** A reconcile that finds the wanted number of pods goes on to its update, expecting nothing. */
  lemma ProcessedIsUpdated(s: State)
    requires s.phase.Listed? && |s.phase.view| == s.phase.want
    ensures var t := Step(Step(s, Process), BeginUpdate);
            t.phase == Updating && t.exp.adds == t.exp.dels == 0 && t.api == s.api
  {
  }

  /** So do the deletions of an update keep the gate shut until they have been observed or given up. */
  lemma UpdateWaits(s: State, condemned: set<string>, name: string, es: seq<Event>)
    requires s.phase.Updating? && name in condemned
    requires forall e :: e in es ==> !Hazard(e) && !e.Restart? && !ShowsDeletion(e, name)
    ensures var t := Run(s, [Update(condemned)] + ([EndSync] + es));
            !t.exp.Satisfied() && !t.phase.Listed? && t.api <= s.api
  {
    var a := Step(s, Update(condemned));
    RunCons(s, Update(condemned), [EndSync] + es);
    RunCons(a, EndSync, es);
    WaitingRun(Step(a, EndSync), es, name);
    assert |Run(s, [Update(condemned)] + ([EndSync] + es)).exp.keys| > 0;
  }

  /** But only the last of them: a second pass of the same update forgets the names of the first, so
      the gate opens once its own deletions are settled. */
  lemma SecondPassForgets(s: State, first: set<string>, second: set<string>)
    requires s.phase.Updating?
    ensures Step(Step(s, Update(first)), Update(second)).exp == Expectations(0, |second|, second)
  {
  }

  // ---- A scale-out from beginning to end ----

  /** The pod made by the create request at index `i` of a plan begun in `s`. */
  function Made(s: State, plan: seq<nat>, i: nat): Pod
    requires i < |plan|
  {
    Pod(s.nextUid + i, plan[i], PaddedOrdinal(s.padding, plan[i]))
  }

  ghost function Span(s: State, plan: seq<nat>, from: nat, to: nat): set<Pod>
    requires to <= |plan|
  {
    set i | from <= i < to :: Made(s, plan, i)
  }

  lemma SpanEnds(s: State, plan: seq<nat>, from: nat, to: nat)
    requires from < to <= |plan|
    ensures Span(s, plan, from, to) == Span(s, plan, from, to - 1) + {Made(s, plan, to - 1)}
    ensures Span(s, plan, from, to) == {Made(s, plan, from)} + Span(s, plan, from + 1, to)
    ensures Made(s, plan, to - 1) !in Span(s, plan, from, to - 1)
    ensures Made(s, plan, from) !in Span(s, plan, from + 1, to)
  {
  }

  lemma {:induction false} SpanSize(s: State, plan: seq<nat>, to: nat)
    requires to <= |plan|
    ensures |Span(s, plan, 0, to)| == to
  {
    if to > 0 {
      SpanSize(s, plan, to - 1);
      SpanEnds(s, plan, 0, to);
    } else {
      assert Span(s, plan, 0, 0) == {};
    }
  }

  /** The ordinals of a plan from an index on. */
  ghost function Left(plan: seq<nat>, from: nat): set<int> { set i | from <= i < |plan| :: plan[i] }

  function ThePlan(s: State): seq<nat>
    requires |s.cache| < s.replicas
  {
    LeastFree(Ords(s.cache), s.replicas - |s.cache|)[..NumCreate(s.cache, s.replicas)]
  }

  lemma PlanFacts(s: State)
    requires |s.cache| < s.replicas
    ensures var plan := ThePlan(s);
            && |plan| == NumCreate(s.cache, s.replicas)
            && (forall i, j :: 0 <= i < j < |plan| ==> plan[i] < plan[j])
            && (forall i :: 0 <= i < |plan| ==> plan[i] !in Ords(s.cache))
            && Planned(s.cache, s.replicas) == Left(plan, 0)
  {
    var all := LeastFree(Ords(s.cache), s.replicas - |s.cache|);
    LeastFreeIsLeast(Ords(s.cache), s.replicas - |s.cache|);
    var plan := ThePlan(s);
    forall i | 0 <= i < |plan| ensures plan[i] !in Ords(s.cache) { assert all[i] in all; }
    assert forall o :: o in plan <==> o in Left(plan, 0);
  }

  /** What a name says of a pod: an ordinal printed in it is the pod's. */
  ghost predicate NamesTell(pods: set<Pod>) {
    forall p, w: nat, o: nat :: p in pods && p.name == PaddedOrdinal(w, o) ==> p.ordinal == o
  }

  /** Before a scale-out: idle, nothing outstanding, fewer pods than wanted. */
  ghost predicate ReadyToScale(s: State) {
    && Exact(s) && s.phase.Idle? && s.exp.Satisfied() && |s.cache| < s.replicas && NamesTell(s.api)
  }

  ghost function AfterCreates(s: State, plan: seq<nat>, n: nat): State
    requires n <= |plan|
  {
    s.(api := s.api + Span(s, plan, 0, n), inflight := Span(s, plan, 0, n), nextUid := s.nextUid + n,
       exp := Expectations(|plan|, 0, {}), phase := Creating(Left(plan, n), |plan|, n, false, s.padding))
  }

  lemma CreateNext(s: State, n: nat)
    requires ReadyToScale(s) && n < |ThePlan(s)|
    ensures var plan := ThePlan(s);
            Step(AfterCreates(s, plan, n), CreatePod(plan[n], Created)) == AfterCreates(s, plan, n + 1)
  {
    var plan := ThePlan(s);
    var t := AfterCreates(s, plan, n);
    NameIsFree(s, n);
    SpanEnds(s, plan, 0, n + 1);
    LeftNext(s, n);
    CreateOne(t, plan[n]);
    assert s.api + Span(s, plan, 0, n + 1) == s.api + Span(s, plan, 0, n) + {Made(s, plan, n)};
  }

  lemma LeftNext(s: State, n: nat)
    requires |s.cache| < s.replicas && n < |ThePlan(s)|
    ensures var plan := ThePlan(s); plan[n] in Left(plan, n) && Left(plan, n) - {plan[n]} == Left(plan, n + 1)
  {
    PlanFacts(s);
  }

  lemma CreateOne(t: State, o: int)
    requires t.phase.Creating? && o in t.phase.todo && PaddedOrdinal(t.phase.width, o) !in NamesOf(t.api)
    ensures var pod := Pod(t.nextUid, o, PaddedOrdinal(t.phase.width, o));
            Step(t, CreatePod(o, Created)) ==
            t.(api := t.api + {pod}, inflight := t.inflight + {pod}, nextUid := t.nextUid + 1,
               phase := t.phase.(todo := t.phase.todo - {o}, granted := t.phase.granted + 1))
  {
  }

  lemma NameIsFree(s: State, n: nat)
    requires ReadyToScale(s) && n < |ThePlan(s)|
    ensures var plan := ThePlan(s);
            PaddedOrdinal(s.padding, plan[n]) !in NamesOf(s.api + Span(s, plan, 0, n))
  {
    var plan := ThePlan(s);
    PlanFacts(s);
    forall p | p in s.api + Span(s, plan, 0, n) ensures p.name != PaddedOrdinal(s.padding, plan[n]) {
      if p in s.api {
        assert p in s.cache && p.ordinal in Ords(s.cache);
      } else {
        var i :| 0 <= i < n && p == Made(s, plan, i);
        PaddedInjective(s.padding, plan[i], s.padding, plan[n]);
      }
    }
  }

  ghost function CreateEvents(plan: seq<nat>, n: nat): seq<Event>
    requires n <= |plan|
  {
    if n == 0 then [BeginSync, ScaleOut] else CreateEvents(plan, n - 1) + [CreatePod(plan[n - 1], Created)]
  }

  lemma {:induction false} RunConcat(s: State, a: seq<Event>, b: seq<Event>)
    ensures Run(s, a + b) == Run(Run(s, a), b)
    decreases |a|
  {
    if a == [] {
      assert a + b == b;
    } else {
      assert (a + b)[1..] == a[1..] + b;
      RunConcat(Step(s, a[0]), a[1..], b);
    }
  }

  lemma RunOne(s: State, e: Event)
    ensures Run(s, [e]) == Step(s, e)
  {
    assert [e][1..] == [];
  }

  lemma RunTwo(s: State, e: Event, f: Event)
    ensures Run(s, [e, f]) == Step(Step(s, e), f)
  {
    assert [e, f][1..] == [f];
    RunOne(Step(s, e), f);
  }

  lemma RunExtend(s: State, es: seq<Event>, e: Event, t: State)
    requires Run(s, es) == t
    ensures Run(s, es + [e]) == Step(t, e)
  {
    RunConcat(s, es, [e]);
    RunOne(t, e);
  }

  lemma StartCreates(s: State)
    requires ReadyToScale(s)
    ensures Step(Step(s, BeginSync), ScaleOut) == AfterCreates(s, ThePlan(s), 0)
  {
    PlanFacts(s);
    assert Step(s, BeginSync) == s.(phase := Listed(s.cache, s.replicas, s.padding));
    assert Span(s, ThePlan(s), 0, 0) == {};
  }

  lemma {:induction false} CreatesRun(s: State, n: nat)
    requires ReadyToScale(s) && n <= |ThePlan(s)|
    ensures Run(s, CreateEvents(ThePlan(s), n)) == AfterCreates(s, ThePlan(s), n)
  {
    var plan := ThePlan(s);
    if n == 0 {
      RunTwo(s, BeginSync, ScaleOut);
      StartCreates(s);
    } else {
      CreatesRun(s, n - 1);
      CreateNext(s, n - 1);
      RunExtend(s, CreateEvents(plan, n - 1), CreatePod(plan[n - 1], Created), AfterCreates(s, plan, n - 1));
    }
  }

  /** After the reconcile, with the first `n` of its pods observed. */
  ghost function AfterSeen(s: State, plan: seq<nat>, n: nat): State
    requires n <= |plan|
  {
    s.(api := s.api + Span(s, plan, 0, |plan|), inflight := Span(s, plan, n, |plan|),
       cache := s.cache + Span(s, plan, 0, n), nextUid := s.nextUid + |plan|,
       exp := Expectations(|plan| - n, 0, {}), phase := Idle)
  }

  ghost function SeenEvents(s: State, plan: seq<nat>, n: nat): seq<Event>
    requires n <= |plan|
  {
    if n == 0 then [FinishCreates, EndSync] else SeenEvents(s, plan, n - 1) + [CreateSeen(Made(s, plan, n - 1))]
  }

  lemma EndCreates(s: State)
    requires ReadyToScale(s)
    ensures var plan := ThePlan(s);
            Step(Step(AfterCreates(s, plan, |plan|), FinishCreates), EndSync) == AfterSeen(s, plan, 0)
  {
    var plan := ThePlan(s);
    assert Left(plan, |plan|) == {} && Span(s, plan, 0, 0) == {};
  }

  lemma SeeNext(s: State, n: nat)
    requires ReadyToScale(s) && n < |ThePlan(s)|
    ensures var plan := ThePlan(s);
            Step(AfterSeen(s, plan, n), CreateSeen(Made(s, plan, n))) == AfterSeen(s, plan, n + 1)
  {
    var plan := ThePlan(s);
    SpanEnds(s, plan, n, |plan|);
    SpanEnds(s, plan, 0, n + 1);
    SeeOne(AfterSeen(s, plan, n), Made(s, plan, n));
    SeenSets(s.cache, Span(s, plan, 0, n), Span(s, plan, n + 1, |plan|), Made(s, plan, n));
  }

  lemma SeeOne(t: State, p: Pod)
    requires t.phase.Idle? && p in t.inflight
    ensures Step(t, CreateSeen(p)) == t.(inflight := t.inflight - {p}, cache := t.cache + {p}, exp := t.exp.Lower(1))
  {
  }

  lemma SeenSets(cache: set<Pod>, seen: set<Pod>, later: set<Pod>, p: Pod)
    requires p !in later
    ensures ({p} + later) - {p} == later && cache + seen + {p} == cache + (seen + {p})
  {
  }

  lemma {:induction false} SeenRun(s: State, n: nat)
    requires ReadyToScale(s) && n <= |ThePlan(s)|
    ensures Run(AfterCreates(s, ThePlan(s), |ThePlan(s)|), SeenEvents(s, ThePlan(s), n)) == AfterSeen(s, ThePlan(s), n)
  {
    var plan := ThePlan(s);
    var t := AfterCreates(s, plan, |plan|);
    if n == 0 {
      RunTwo(t, FinishCreates, EndSync);
      EndCreates(s);
    } else {
      SeenRun(s, n - 1);
      SeeNext(s, n - 1);
      RunExtend(t, SeenEvents(s, plan, n - 1), CreateSeen(Made(s, plan, n - 1)), AfterSeen(s, plan, n - 1));
    }
  }

  /** Progress: a scale-out whose creates succeed and whose pods are all observed is followed by a
      reconcile that passes the gate and lists as many pods as are wanted, or a burst more than
      before. */
  lemma ScaleOutCompletes(s: State)
    requires ReadyToScale(s)
    ensures var plan := ThePlan(s);
            var es := CreateEvents(plan, |plan|) + SeenEvents(s, plan, |plan|) + [BeginSync];
            var t := Run(s, es);
            t.phase.Listed? && |t.phase.view| == Min(s.replicas, |s.cache| + 250) && s.cache <= t.phase.view
  {
    var plan := ThePlan(s);
    var creates, seen := CreateEvents(plan, |plan|), SeenEvents(s, plan, |plan|);
    CreatesRun(s, |plan|);
    SeenRun(s, |plan|);
    RunConcat(s, creates, seen);
    RunExtend(s, creates + seen, BeginSync, AfterSeen(s, plan, |plan|));
    ListedAfter(s);
  }

  lemma ListedAfter(s: State)
    requires ReadyToScale(s)
    ensures var plan := ThePlan(s);
            var t := Step(AfterSeen(s, plan, |plan|), BeginSync);
            t.phase.Listed? && |t.phase.view| == Min(s.replicas, |s.cache| + BURST_REPLICAS) && s.cache <= t.phase.view
  {
    PlanFacts(s);
    NewToCache(s);
    OpenGate(AfterSeen(s, ThePlan(s), |ThePlan(s)|));
  }

  lemma OpenGate(t: State)
    requires t.phase.Idle? && t.exp.Satisfied()
    ensures Step(t, BeginSync) == t.(phase := Listed(t.cache, t.replicas, t.padding))
  {
  }

  lemma NewToCache(s: State)
    requires |s.cache| < s.replicas
    ensures var plan := ThePlan(s);
            |s.cache + Span(s, plan, 0, |plan|)| == |s.cache| + |plan|
  {
    var plan := ThePlan(s);
    PlanFacts(s);
    SpanSize(s, plan, |plan|);
    assert s.cache !! Span(s, plan, 0, |plan|) by {
      forall p | p in Span(s, plan, 0, |plan|) ensures p !in s.cache { assert p.ordinal !in Ords(s.cache); }
    }
  }
}
