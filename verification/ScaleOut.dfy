/** StatefulSet-mode scaling as a protocol between the API server, the lagging informer
    cache, the expectations and the operator. A run is any finite list of events; an event
    that is not enabled leaves the state as it is. */
module ScaleOut {
  import opened MathUtils
  import opened Names
  import opened NodeSets
  import opened Ordinals
  import opened Sets

  /** A pod: its name ends in its ordinal, padded as the NodeSet asked for at the time; the UID
      tells two incarnations of one name apart. */
  datatype Pod = Pod(uid: nat, ordinal: int, name: string)

  /** UID-tracking expectations of one NodeSet: creates and deletes still to be seen, and
      the names whose deletion has not been seen. */
  datatype Expectations = Expectations(adds: int, dels: int, keys: set<string>) {
    predicate Satisfied() { adds <= 0 && dels <= 0 }
    static function ExpectDeletions(ks: set<string>): Expectations { Expectations(0, |ks|, ks) }
    function Raise(n: nat): Expectations { this.(adds := adds + n) }
    function Lower(n: nat): Expectations { this.(adds := adds - n) }
    function Cleared(): Expectations { this.(adds := 0, dels := 0) }
    function DeletionObserved(k: string): Expectations {
      if k in keys then this.(dels := dels - 1, keys := keys - {k}) else this
    }
  }

  /** Where the operator stands in its (single-threaded) reconcile, which works on the replica
      count and the padding it read at its start. */
  datatype Phase =
    | Idle
    | Listing(view: set<Pod>, want: nat, width: nat)
    | Listed(view: set<Pod>, want: nat, width: nat)
    | Creating(todo: set<int>, total: nat, granted: nat, failed: bool, width: nat)
    | Synced
    | Updating

  datatype State = State(
    api: set<Pod>, cache: set<Pod>, inflight: set<Pod>, original: set<Pod>, nextUid: nat,
    exp: Expectations, replicas: nat, padding: nat, peak: nat, phase: Phase)

  /** What one create request came to. */
  datatype Outcome = Created | CreatedThenFailed | NamespaceGone | Rejected

  datatype Event =
    | SetReplicas(n: nat)
    | SetPadding(n: nat)
    | Vanish(pod: Pod)
    | CreateSeen(pod: Pod)
    | CreateSeenTerminating(pod: Pod)
    | CreateMissed(pod: Pod)
    | TerminatingSeen(pod: Pod)
    | DeleteSeen(pod: Pod)
    | Restart
    | BeginSync
    | ListPods
    | PassGate
    | Expire
    | ScaleOut
    | ScaleIn(condemned: set<string>)
    | Process
    | UncordonFails
    | CreatePod(ordinal: int, outcome: Outcome)
    | FinishCreates
    | CondemnedSkipped(key: string)
    | BeginUpdate
    | Update(condemned: set<string>)
    | EndSync

  function Ords(pods: set<Pod>): set<int> { set p | p in pods :: p.ordinal }

  function NamesOf(pods: set<Pod>): set<string> { set p | p in pods :: p.name }

  function ToSet(s: seq<nat>): (r: set<int>)
    ensures r == Elems(s)
  {
    set o | o in s
  }

  /** How many creates one scale-out attempts. */
  function NumCreate(view: set<Pod>, want: nat): (n: nat)
    requires |view| < want
    ensures 0 < n <= want - |view| && n <= BURST_REPLICAS
  {
    if want - |view| <= BURST_REPLICAS then want - |view| else BURST_REPLICAS
  }

  function Planned(view: set<Pod>, want: nat): set<int>
    requires |view| < want
  {
    ToSet(LeastFree(Ords(view), want - |view|)[..NumCreate(view, want)])
  }

  /** The informer's side: events that move pods between the API server and the cache. */
  function Informer(s: State, e: Event): State {
    match e
    case CreateSeen(p) =>
      if p in s.inflight then
        s.(inflight := s.inflight - {p}, cache := s.cache + {p}, exp := s.exp.Lower(1))
      else s
    case CreateSeenTerminating(p) =>
      if p in s.inflight then
        s.(inflight := s.inflight - {p}, cache := s.cache + {p}, exp := s.exp.DeletionObserved(p.name))
      else s
    case CreateMissed(p) =>
      if p in s.inflight && p !in s.api then s.(inflight := s.inflight - {p}) else s
    case TerminatingSeen(p) =>
      if p in s.cache then s.(exp := s.exp.DeletionObserved(p.name)) else s
    case DeleteSeen(p) =>
      if p in s.cache && p !in s.api then
        s.(cache := s.cache - {p}, exp := s.exp.DeletionObserved(p.name))
      else s
    case _ => s
  }

  /** One create request; the API server refuses a name that is already in use. */
  function CreateRequest(s: State, o: int, outcome: Outcome): State
    requires s.phase.Creating? && o in s.phase.todo
  {
    var pod := Pod(s.nextUid, o, PaddedOrdinal(s.phase.width, o));
    var rest := s.phase.(todo := s.phase.todo - {o});
    if pod.name in NamesOf(s.api) then s.(phase := rest.(failed := true)) else
    match outcome
    case Rejected => s.(phase := rest.(failed := true))
    case NamespaceGone => s.(phase := rest.(granted := rest.granted + 1))
    case Created =>
      s.(api := s.api + {pod}, inflight := s.inflight + {pod}, nextUid := s.nextUid + 1,
         phase := rest.(granted := rest.granted + 1))
    case CreatedThenFailed =>
      s.(api := s.api + {pod}, inflight := s.inflight + {pod}, nextUid := s.nextUid + 1,
         phase := rest.(failed := true))
  }

  /** The operator's side. */
  function Operator(s: State, e: Event): State {
    match e
    case BeginSync =>
      if s.phase.Idle? && s.exp.Satisfied() then s.(phase := Listed(s.cache, s.replicas, s.padding)) else s
    case ListPods => if s.phase.Idle? then s.(phase := Listing(s.cache, s.replicas, s.padding)) else s
    case PassGate =>
      if s.phase.Listing? then
        s.(phase := if s.exp.Satisfied() then Listed(s.phase.view, s.phase.want, s.phase.width) else Idle)
      else s
    case Expire => if s.phase.Idle? then s.(phase := Listed(s.cache, s.replicas, s.padding)) else s
    case ScaleOut =>
      if s.phase.Listed? && |s.phase.view| < s.phase.want then
        var n := NumCreate(s.phase.view, s.phase.want);
        s.(exp := Expectations.ExpectDeletions({}).Raise(n),
           phase := Creating(Planned(s.phase.view, s.phase.want), n, 0, false, s.phase.width))
      else s
    case ScaleIn(condemned) =>
      if s.phase.Listed? && |s.phase.view| > s.phase.want then
        s.(exp := Expectations.ExpectDeletions(condemned), phase := Synced)
      else s
    case Process =>
      if s.phase.Listed? && |s.phase.view| == s.phase.want then
        s.(exp := s.exp.Cleared(), phase := Synced)
      else s
    case UncordonFails =>
      if s.phase.Creating? && !s.phase.failed && s.phase.granted == 0 && |s.phase.todo| == s.phase.total
      then s.(phase := Idle) else s
    case CreatePod(o, outcome) =>
      if s.phase.Creating? && o in s.phase.todo then CreateRequest(s, o, outcome) else s
    case FinishCreates =>
      if s.phase.Creating? && (s.phase.todo == {} || s.phase.failed) && s.phase.granted <= s.phase.total then
        s.(exp := s.exp.Lower(s.phase.total - s.phase.granted),
           phase := if s.phase.failed then Idle else Synced)
      else s
    case CondemnedSkipped(key) => s.(exp := s.exp.DeletionObserved(key))
    case BeginUpdate => if s.phase.Synced? && s.exp.Satisfied() then s.(phase := Updating) else s
    case Update(condemned) =>
      if s.phase.Updating? then s.(exp := Expectations.ExpectDeletions(condemned)) else s
    case EndSync => if s.phase.Creating? then s else s.(phase := Idle)
    case _ => s
  }

  function Step(s: State, e: Event): State {
    match e
    case SetReplicas(n) => s.(replicas := n, peak := Max(s.peak, n))
    case SetPadding(n) => s.(padding := n)
    case Vanish(p) => s.(api := s.api - {p})
    case Restart =>
      s.(cache := s.api, inflight := {}, exp := Expectations(0, 0, {}), phase := Idle)
    case _ => Operator(Informer(s, e), e)
  }

  function Run(s: State, es: seq<Event>): State
    decreases |es|
  {
    if es == [] then s else Run(Step(s, es[0]), es[1..])
  }

  /** A started operator: the informer has synced, nothing is expected. */
  ghost predicate Init(s: State) {
    && s.cache == s.api == s.original && s.inflight == {}
    && s.exp == Expectations(0, 0, {}) && s.phase == Idle
    && s.peak == Max(|s.api|, s.replicas)
    && (forall p :: p in s.api ==> p.uid < s.nextUid)
    && UniqueNames(s.api)
  }

  ghost predicate UniqueNames(pods: set<Pod>) {
    forall p, q :: p in pods && q in pods && p.name == q.name ==> p == q
  }

  ghost predicate UniqueOrdinals(pods: set<Pod>) {
    forall p, q :: p in pods && q in pods && p.ordinal == q.ordinal ==> p == q
  }

  /** The three ways round the gate: the list and the gate taken apart, expectations timing
      out, and a create reported as failed although the pod exists. */
  predicate Hazard(e: Event) {
    e.ListPods? || e.PassGate? || e.Expire? || (e.CreatePod? && e.outcome.CreatedThenFailed?)
  }

  /** Creates reserved but not yet granted or given back. */
  ghost function Owed(p: Phase): int {
    if p.Creating? then p.total - p.granted else 0
  }

  /** What every hazard-free step keeps: no unobserved create goes unexpected. */
  ghost predicate Tracked(s: State) {
    && s.api <= s.cache + s.inflight
    && |s.inflight| + Owed(s.phase) <= s.exp.adds
    && match s.phase
       case Idle | Synced => true
       case Listing(_, _, _) => false
       case Listed(view, _, _) => s.inflight == {} && s.api <= view
       case Creating(todo, total, granted, _, _) => |todo| + granted <= total && todo !! Ords(s.api)
       case Updating => s.inflight == {}
  }

  lemma PlannedIsFree(view: set<Pod>, want: nat)
    requires |view| < want
    ensures Planned(view, want) !! Ords(view)
    ensures |Planned(view, want)| <= NumCreate(view, want)
  {
    var d := want - |view|;
    LeastFreeIsLeast(Ords(view), d);
    ElemsSize(LeastFree(Ords(view), d)[..NumCreate(view, want)]);
  }

  lemma TrackedInformer(s: State, e: Event)
    requires Tracked(s)
    ensures Tracked(Informer(s, e))
  {
  }

  lemma TrackedCreate(s: State, o: int, outcome: Outcome)
    requires Tracked(s) && s.phase.Creating? && o in s.phase.todo && !outcome.CreatedThenFailed?
    ensures Tracked(CreateRequest(s, o, outcome))
  {
    var t := CreateRequest(s, o, outcome);
    assert |t.phase.todo| == |s.phase.todo| - 1;
    if t.api != s.api {
      assert Ords(t.api) == Ords(s.api) + {o};
    }
  }

  lemma TrackedOperator(s: State, e: Event)
    requires Tracked(s) && !Hazard(e)
    ensures Tracked(Operator(s, e))
  {
    if e.ScaleOut? && s.phase.Listed? && |s.phase.view| < s.phase.want {
      PlannedIsFree(s.phase.view, s.phase.want);
      assert Ords(s.api) <= Ords(s.phase.view);
    }
    if e.CreatePod? && s.phase.Creating? && e.ordinal in s.phase.todo {
      TrackedCreate(s, e.ordinal, e.outcome);
    }
  }

  lemma TrackedStep(s: State, e: Event)
    requires Tracked(s) && !Hazard(e)
    ensures Tracked(Step(s, e))
  {
    TrackedInformer(s, e);
    TrackedOperator(Informer(s, e), e);
    if e.Vanish? {
      assert Ords(s.api - {e.pod}) <= Ords(s.api);
    }
  }

  lemma {:induction false} TrackedRun(s: State, es: seq<Event>)
    requires Tracked(s) && forall e :: e in es ==> !Hazard(e)
    ensures Tracked(Run(s, es))
    decreases |es|
  {
    if es != [] {
      TrackedStep(s, es[0]);
      TrackedRun(Step(s, es[0]), es[1..]);
    }
  }

  /** In every hazard-free run from a started operator: outstanding create expectations cover
      the unobserved creates; whenever a list has passed the gate it holds every pod the API
      server has; and no pending create asks for a name that is in use. */
  lemma GateSeesEveryPod(s: State, es: seq<Event>)
    requires Init(s) && forall e :: e in es ==> !Hazard(e)
    ensures var t := Run(s, es);
            && |t.inflight| <= t.exp.adds
            && t.api <= t.cache + t.inflight
            && (t.phase.Listed? ==> t.inflight == {} && t.api <= t.phase.view)
            && (t.phase.Creating? ==> t.phase.todo !! Ords(t.api))
  {
    TrackedRun(s, es);
  }

  // ---- The count bound ----

  /** The naturals up to and including `o`. */
  ghost function Upto(o: int): (r: set<int>)
    ensures forall k :: k in r <==> 0 <= k <= o
    decreases o + 1
  {
    if o < 0 then {} else Upto(o - 1) + {o}
  }

  /** Pods that were there when the operator started and still are, and the others. */
  ghost function Survivors(s: State): set<Pod> { s.api * s.original }
  ghost function Mine(s: State): set<Pod> { s.api - s.original }

  /** An ordinal the operator may use without outgrowing the peak: no survivor has it, and there
      is room for it and for every lower ordinal beside the survivors. */
  ghost predicate Fits(s: State, o: int) {
    && 0 <= o && o !in Ords(Survivors(s))
    && |Upto(o) - Ords(Survivors(s))| + |Survivors(s)| <= s.peak
  }

  /** What every step keeps that gives no ordinal to two of the operator's pods. */
  ghost predicate Bounded(s: State) {
    && UniqueOrdinals(Mine(s))
    && (forall p :: p in s.original ==> p.uid < s.nextUid)
    && Survivors(s) <= s.cache
    && |Survivors(s)| <= s.peak && s.replicas <= s.peak
    && (forall p :: p in Mine(s) ==> Fits(s, p.ordinal))
    && match s.phase
       case Idle | Synced | Updating => true
       case Listing(view, want, _) => Survivors(s) <= view && want <= s.peak
       case Listed(view, want, _) => Survivors(s) <= view && want <= s.peak
       case Creating(todo, _, _, _, _) => forall o :: o in todo ==> Fits(s, o)
  }

  /** Every name of the operator's own making is padded alike: then a second use of an ordinal is
      a second use of its name, which the API server refuses. */
  ghost predicate Uniform(s: State) {
    && (forall p :: p in Mine(s) ==> p.name == PaddedOrdinal(s.padding, p.ordinal))
    && (s.phase.Listing? || s.phase.Listed? || s.phase.Creating? ==> s.phase.width == s.padding)
    && (forall p :: p in s.original ==> p.uid < s.nextUid)
  }

  lemma UniformStep(s: State, e: Event)
    requires Uniform(s) && !e.SetPadding?
    ensures Uniform(Step(s, e))
  {
    UniformOperator(Informer(s, e), e);
  }

  lemma UniformOperator(s: State, e: Event)
    requires Uniform(s)
    ensures Uniform(Operator(s, e))
  {
    if e.CreatePod? {
      if s.phase.Creating? && e.ordinal in s.phase.todo { UniformCreate(s, e.ordinal, e.outcome); }
    } else {
      assert Mine(Operator(s, e)) == Mine(s);
    }
  }

  lemma UniformCreate(s: State, o: int, outcome: Outcome)
    requires Uniform(s) && s.phase.Creating? && o in s.phase.todo
    ensures Uniform(CreateRequest(s, o, outcome))
  {
    var t := CreateRequest(s, o, outcome);
    assert forall p :: p in Mine(t) ==> p in Mine(s) || p.name == PaddedOrdinal(s.phase.width, p.ordinal);
  }

  lemma {:induction false} OrdsSize(pods: set<Pod>)
    ensures |Ords(pods)| <= |pods|
  {
    if pods != {} {
      var p :| p in pods;
      OrdsSize(pods - {p});
      assert Ords(pods) == Ords(pods - {p}) + {p.ordinal};
    }
  }

  lemma {:induction false} OrdsSizeExact(pods: set<Pod>)
    requires UniqueOrdinals(pods)
    ensures |Ords(pods)| == |pods|
  {
    if pods != {} {
      var p :| p in pods;
      OrdsSizeExact(pods - {p});
      assert Ords(pods) == Ords(pods - {p}) + {p.ordinal};
    }
  }

  /** A planned name leaves room: the free names up to it are all planned, the rest are
      names of listed pods that are not survivors. */
  lemma PlannedFits(view: set<Pod>, want: nat, kept: set<Pod>, o: int)
    requires |view| < want && kept <= view && o in Planned(view, want)
    ensures 0 <= o && o !in Ords(kept) && |Upto(o) - Ords(kept)| + |kept| <= want
  {
    var d := want - |view|;
    var s := LeastFree(Ords(view), d);
    LeastFreeIsLeast(Ords(view), d);
    var n := NumCreate(view, want);
    assert o in s[..n] && o in s;
    var others := view - kept;
    var room: set<int> := ToSet(s) + Ords(others);
    forall k | k in Upto(o) - Ords(kept) ensures k in room {
      if k in Ords(view) {
        var p :| p in view && p.ordinal == k;
        assert p in others;
      }
    }
    SubsetSize(Upto(o) - Ords(kept), room);
    ElemsSize<int>(s);
    OrdsSize(others);
    assert |view - kept| == |view| - |kept|;
    assert |room| <= |ToSet(s)| + |Ords(others)|;
  }

  lemma VanishKeepsFits(s: State, p: Pod, o: int)
    requires Fits(s, o)
    ensures Fits(Step(s, Vanish(p)), o)
  {
    var t := Step(s, Vanish(p));
    var a, b := Survivors(s), Survivors(t);
    if p in a {
      assert b == a - {p};
      assert Ords(a) <= Ords(b) + {p.ordinal};
      SubsetSize(Upto(o) - Ords(b), (Upto(o) - Ords(a)) + {p.ordinal});
    } else {
      assert b == a;
    }
  }

  lemma BoundedVanish(s: State, p: Pod)
    requires Bounded(s)
    ensures Bounded(Step(s, Vanish(p)))
  {
    var t := Step(s, Vanish(p));
    forall o | Fits(s, o) ensures Fits(t, o) { VanishKeepsFits(s, p, o); }
    SubsetSize(Survivors(t), Survivors(s));
  }

  lemma BoundedInformer(s: State, e: Event)
    requires Bounded(s)
    ensures Bounded(Informer(s, e))
  {
    var t := Informer(s, e);
    assert Survivors(t) == Survivors(s);
    SameFits(s, t);
  }

  lemma SameFits(s: State, t: State)
    requires Survivors(s) == Survivors(t) && s.peak <= t.peak
    ensures forall o :: Fits(s, o) ==> Fits(t, o)
  {
  }

  /** Why no second pod gets an ordinal: either the names say so, or the list did. */
  lemma CreateIsNew(s: State, o: int)
    requires s.phase.Creating? && o in s.phase.todo && (Uniform(s) || Tracked(s))
    requires PaddedOrdinal(s.phase.width, o) !in NamesOf(s.api)
    ensures o !in Ords(Mine(s))
  {
    if p :| p in Mine(s) && p.ordinal == o {
      assert p in s.api && p.name in NamesOf(s.api) && o in Ords(s.api);
    }
  }

  lemma OneMorePod(s: State, t: State, pod: Pod)
    requires UniqueOrdinals(Mine(s)) && pod.ordinal !in Ords(Mine(s)) && pod !in s.original
    requires t.api == s.api + {pod} && t.original == s.original
    ensures UniqueOrdinals(Mine(t)) && Mine(t) == Mine(s) + {pod} && Survivors(t) == Survivors(s)
  {
    assert forall p :: p in Mine(s) ==> p.ordinal in Ords(Mine(s));
  }

  lemma BoundedCreate(s: State, o: int, outcome: Outcome)
    requires Bounded(s) && s.phase.Creating? && o in s.phase.todo && (Uniform(s) || Tracked(s))
    ensures Bounded(CreateRequest(s, o, outcome))
  {
    var t := CreateRequest(s, o, outcome);
    var pod := Pod(s.nextUid, o, PaddedOrdinal(s.phase.width, o));
    if t.api != s.api {
      CreateIsNew(s, o);
      OneMorePod(s, t, pod);
    }
    assert Survivors(t) == Survivors(s);
    SameFits(s, t);
  }

  lemma BoundedScaleOut(s: State)
    requires Bounded(s) && s.phase.Listed? && |s.phase.view| < s.phase.want
    ensures Bounded(Operator(s, ScaleOut))
  {
    var t := Operator(s, ScaleOut);
    assert Survivors(t) == Survivors(s);
    SameFits(s, t);
    forall o | o in t.phase.todo ensures Fits(t, o) {
      PlannedFits(s.phase.view, s.phase.want, Survivors(s), o);
    }
  }

  lemma BoundedOperator(s: State, e: Event)
    requires Bounded(s) && (Uniform(s) || Tracked(s))
    ensures Bounded(Operator(s, e))
  {
    var t := Operator(s, e);
    if e.CreatePod? {
      if s.phase.Creating? && e.ordinal in s.phase.todo { BoundedCreate(s, e.ordinal, e.outcome); }
    } else if e.ScaleOut? {
      if s.phase.Listed? && |s.phase.view| < s.phase.want { BoundedScaleOut(s); }
    } else {
      assert Survivors(t) == Survivors(s);
      SameFits(s, t);
    }
  }

  lemma BoundedStep(s: State, e: Event)
    requires Bounded(s) && (Uniform(s) || Tracked(s))
    ensures Bounded(Step(s, e))
  {
    var t := Step(s, e);
    if e.Vanish? {
      BoundedVanish(s, e.pod);
    } else if e.SetReplicas? || e.SetPadding? || e.Restart? {
      assert Survivors(t) == Survivors(s);
      SameFits(s, t);
    } else {
      BoundedInformer(s, e);
      if Tracked(s) { TrackedInformer(s, e); }
      BoundedOperator(Informer(s, e), e);
    }
  }

  ghost predicate FixedPadding(es: seq<Event>) { forall e :: e in es ==> !e.SetPadding? }
  ghost predicate HazardFree(es: seq<Event>) { forall e :: e in es ==> !Hazard(e) }

  lemma {:induction false} BoundedRun(s: State, es: seq<Event>)
    requires Bounded(s)
    requires (Uniform(s) && FixedPadding(es)) || (Tracked(s) && HazardFree(es))
    ensures Bounded(Run(s, es))
    decreases |es|
  {
    if es != [] {
      BoundedStep(s, es[0]);
      if Uniform(s) && FixedPadding(es) { UniformStep(s, es[0]); } else { TrackedStep(s, es[0]); }
      BoundedRun(Step(s, es[0]), es[1..]);
    }
  }

  lemma BoundedCount(s: State)
    requires Bounded(s)
    ensures |s.api| <= s.peak
  {
    var mine, kept := Mine(s), Survivors(s);
    assert s.api == mine + kept && mine !! kept;
    if mine != {} {
      var p :| p in mine;
      assert p.ordinal in Ords(mine);
      var m := Greatest(Ords(mine), p.ordinal);
      var q :| q in mine && q.ordinal == m;
      assert Fits(s, m);
      assert Ords(mine) <= Upto(m) - Ords(kept);
      SubsetSize(Ords(mine), Upto(m) - Ords(kept));
      OrdsSizeExact(mine);
    }
  }

  lemma InitBounded(s: State)
    requires Init(s)
    ensures Bounded(s) && Uniform(s) && Tracked(s)
  {
    assert Survivors(s) == s.api && Mine(s) == {};
  }

  /** The largest replica count in force at any point of a run. */
  function LargestReplicas(replicas: nat, es: seq<Event>): (r: nat)
    ensures replicas <= r
    decreases |es|
  {
    if es == [] then replicas
    else if es[0].SetReplicas? then Max(replicas, LargestReplicas(es[0].n, es[1..]))
    else LargestReplicas(replicas, es[1..])
  }

  lemma {:induction false} PeakIsLargest(s: State, es: seq<Event>)
    requires s.replicas <= s.peak
    ensures Run(s, es).peak == Max(s.peak, LargestReplicas(s.replicas, es))
    decreases |es|
  {
    if es != [] {
      PeakIsLargest(Step(s, es[0]), es[1..]);
    }
  }

  /** No over-creation, whatever the cache lag: the NodeSet never has more pods than it started
      with or than were ever asked for. With the padding left alone this holds in every run, every
      hazard allowed; with the padding edited it holds in every run without a hazard. */
  lemma PodCountBounded(s: State, es: seq<Event>)
    requires Init(s) && (FixedPadding(es) || HazardFree(es))
    ensures |Run(s, es).api| <= Max(|s.api|, LargestReplicas(s.replicas, es))
  {
    InitBounded(s);
    BoundedRun(s, es);
    BoundedCount(Run(s, es));
    PeakIsLargest(s, es);
  }

  // ---- Expectations that nothing will ever meet ----

  /** More creates are expected than can still be observed, and no create is under way. */
  ghost predicate Frozen(s: State) {
    (s.phase.Idle? || s.phase.Listing?) && |s.inflight| < s.exp.adds
  }

  lemma FrozenStep(s: State, e: Event)
    requires Frozen(s) && !e.Restart? && !e.Expire?
    ensures Frozen(Step(s, e)) && Step(s, e).api <= s.api
  {
    FrozenInformer(s, e);
    FrozenOperator(Informer(s, e), e);
  }

  lemma FrozenInformer(s: State, e: Event)
    requires Frozen(s)
    ensures Frozen(Informer(s, e)) && Informer(s, e).api == s.api
  {
  }

  lemma FrozenOperator(s: State, e: Event)
    requires Frozen(s) && !e.Expire?
    ensures Frozen(Operator(s, e)) && Operator(s, e).api == s.api
  {
  }

  /** A frozen NodeSet stays frozen: until its expectations expire or the operator restarts,
      no reconcile passes the gate and no pod is created, whatever replicas are asked for. */
  lemma {:induction false} FrozenForever(s: State, es: seq<Event>)
    requires Frozen(s) && forall e :: e in es ==> !e.Restart? && !e.Expire?
    ensures Frozen(Run(s, es)) && Run(s, es).api <= s.api && !Run(s, es).exp.Satisfied()
    decreases |es|
  {
    if es != [] {
      FrozenStep(s, es[0]);
      FrozenForever(Step(s, es[0]), es[1..]);
    }
  }

  /** One failing uncordon during a scale-out freezes the NodeSet: the raised expectations
      are not given back. */
  lemma UncordonFailureFreezes(s: State, es: seq<Event>)
    requires s.phase.Listed? && |s.phase.view| < s.phase.want && s.inflight == {}
    requires forall e :: e in es ==> !e.Restart? && !e.Expire?
    ensures Run(s, [ScaleOut, UncordonFails] + es).api <= s.api
  {
    var a := Step(s, ScaleOut);
    PlannedSize(s.phase.view, s.phase.want);
    var b := Step(a, UncordonFails);
    assert b.phase == Idle && b.api == s.api;
    FrozenForever(b, es);
    var all := [ScaleOut, UncordonFails] + es;
    assert all[1..] == [UncordonFails] + es && all[1..][1..] == es;
    assert Run(s, all) == Run(a, all[1..]) == Run(b, es);
  }

  lemma PlannedSize(view: set<Pod>, want: nat)
    requires |view| < want
    ensures |Planned(view, want)| == NumCreate(view, want)
  {
    var s := LeastFree(Ords(view), want - |view|);
    LeastFreeIsLeast(Ords(view), want - |view|);
    IncreasingSize(s[..NumCreate(view, want)]);
  }

  lemma {:induction false} IncreasingSize(s: seq<nat>)
    requires forall i, j :: 0 <= i < j < |s| ==> s[i] < s[j]
    ensures |Elems(s)| == |s|
  {
    if |s| > 0 {
      var n := |s| - 1;
      IncreasingSize(s[..n]);
      assert s == s[..n] + [s[n]];
      assert Elems(s) == Elems(s[..n]) + {s[n]};
    }
  }

  lemma RunCons(s: State, e: Event, es: seq<Event>)
    ensures Run(s, [e] + es) == Run(Step(s, e), es)
  {
    assert ([e] + es)[1..] == es;
  }

  // ---- What the hazards can do ----

  /** An operator started with no pods and one wanted. */
  ghost function Fresh(width: nat): State {
    State({}, {}, {}, {}, 0, Expectations(0, 0, {}), 1, width, 1, Idle)
  }

  ghost function FirstPod(width: nat): Pod { Pod(0, 0, PaddedOrdinal(width, 0)) }

  /** That operator after a create that was reported as failed although its pod exists. */
  ghost function AfterLostCreate(width: nat): State {
    Fresh(width).(api := {FirstPod(width)}, inflight := {FirstPod(width)}, nextUid := 1)
  }

  ghost function LostCreate(): seq<Event> {
    [BeginSync] + ([ScaleOut] + ([CreatePod(0, CreatedThenFailed)] + ([FinishCreates] + [])))
  }

  lemma FirstPlanned()
    ensures Planned({}, 1) == {0}
  {
    assert Ords({}) == {};
    var free := LeastFree({}, 1);
    assert free == [0] + LeastFree({0}, 0);
    assert NumCreate({}, 1) == 1 && free[..1] == [0];
  }

  /** One wanted, none in the cache, nothing expected: the operator plans ordinal 0. */
  lemma StartScaleOut(s: State)
    requires s.phase == Idle && s.exp == Expectations(0, 0, {}) && s.replicas == 1 && s.cache == {}
    ensures Step(Step(s, BeginSync), ScaleOut)
         == s.(exp := Expectations(1, 0, {}), phase := Creating({0}, 1, 0, false, s.padding))
  {
    FirstPlanned();
    assert Step(s, BeginSync) == s.(phase := Listed({}, 1, s.padding));
  }

  lemma LoseCreate(width: nat)
    ensures var s := Fresh(width).(exp := Expectations(1, 0, {}), phase := Creating({0}, 1, 0, false, width));
            Step(Step(s, CreatePod(0, CreatedThenFailed)), FinishCreates) == AfterLostCreate(width)
  {
    var s := Fresh(width).(exp := Expectations(1, 0, {}), phase := Creating({0}, 1, 0, false, width));
    assert {0} - {0} == {} && NamesOf({}) == {};
    var t := Step(s, CreatePod(0, CreatedThenFailed));
    assert t == s.(api := {FirstPod(width)}, inflight := {FirstPod(width)}, nextUid := 1,
                   phase := Creating({}, 1, 0, true, width));
  }

  lemma LostCreateRun(width: nat, es: seq<Event>)
    ensures Run(Fresh(width), [BeginSync] + ([ScaleOut] + ([CreatePod(0, CreatedThenFailed)] + ([FinishCreates] + es))))
         == Run(AfterLostCreate(width), es)
  {
    var s := Fresh(width);
    StartScaleOut(s);
    LoseCreate(width);
    var lost := CreatePod(0, CreatedThenFailed);
    var a := Step(s, BeginSync);
    var b := Step(a, ScaleOut);
    var c := Step(b, lost);
    RunCons(c, FinishCreates, es);
    RunCons(b, lost, [FinishCreates] + es);
    RunCons(a, ScaleOut, [lost] + ([FinishCreates] + es));
    RunCons(s, BeginSync, [ScaleOut] + ([lost] + ([FinishCreates] + es)));
  }

  /** Why the hazards matter to the gate: after a create that was reported as failed although
      its pod exists, the next list passes the gate without that pod. */
  lemma LostCreateOpensGate(width: nat)
    ensures Init(Fresh(width))
    ensures var t := Run(Fresh(width), LostCreate() + [BeginSync]);
            t.phase.Listed? && FirstPod(width) in t.api && FirstPod(width) !in t.phase.view
  {
    LostCreateRun(width, [BeginSync]);
    var lost := CreatePod(0, CreatedThenFailed);
    assert LostCreate() + [BeginSync] == [BeginSync] + ([ScaleOut] + ([lost] + ([FinishCreates] + [BeginSync])));
    RunCons(AfterLostCreate(width), BeginSync, []);
  }

  /** Why the padding matters to the count: if it is edited while a created pod is unknown to the
      cache, the same ordinal is created again under another name, and the NodeSet has two pods
      although one was asked for throughout. */
  lemma PaddingEditOverflows(es: seq<Event>)
    requires es == LostCreate() + [SetPadding(2), BeginSync, ScaleOut, CreatePod(0, Created)]
    ensures Init(Fresh(0)) && LargestReplicas(1, es) == 1
    ensures |Run(Fresh(0), es).api| == 2
  {
    var lost := CreatePod(0, CreatedThenFailed);
    var again := [SetPadding(2)] + ([BeginSync] + ([ScaleOut] + ([CreatePod(0, Created)] + [])));
    assert es == [BeginSync] + ([ScaleOut] + ([lost] + ([FinishCreates] + again)));
    LostCreateRun(0, again);
    var s := AfterLostCreate(0).(padding := 2);
    RunCons(AfterLostCreate(0), SetPadding(2), [BeginSync] + ([ScaleOut] + ([CreatePod(0, Created)] + [])));
    RunCons(s, BeginSync, [ScaleOut] + ([CreatePod(0, Created)] + []));
    StartScaleOut(s);
    RunCons(Step(s, BeginSync), ScaleOut, [CreatePod(0, Created)] + []);
    var t := Step(Step(s, BeginSync), ScaleOut);
    RunCons(t, CreatePod(0, Created), []);
    SecondName(t);
    NeverResized(1, es);
  }

  lemma SecondName(t: State)
    requires t.phase == Creating({0}, 1, 0, false, 2) && t.api == {FirstPod(0)} && t.nextUid == 1
    ensures |Step(t, CreatePod(0, Created)).api| == 2
  {
    assert |PaddedOrdinal(0, 0)| == 1 && |PaddedOrdinal(2, 0)| == 2;
    assert NamesOf(t.api) == {PaddedOrdinal(0, 0)};
    var pod := Pod(1, 0, PaddedOrdinal(2, 0));
    assert Step(t, CreatePod(0, Created)).api == {FirstPod(0), pod};
  }

  lemma {:induction false} NeverResized(replicas: nat, es: seq<Event>)
    requires forall e :: e in es ==> !e.SetReplicas?
    ensures LargestReplicas(replicas, es) == replicas
    decreases |es|
  {
    if es != [] { NeverResized(replicas, es[1..]); }
  }
}
