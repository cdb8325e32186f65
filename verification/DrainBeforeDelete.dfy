/** Deleting condemned pods while jobs run: slurmctld, the operator's cached view of its nodes,
    the refresh at the start of a reconcile, and the gap between the drained check of a pod and
    its deletion. */
module DrainBeforeDelete {
  import opened SlurmNodes

  type PodId = nat
  type NodeName = string

  /** A node in slurmctld; work counts the running jobs, prologues and epilogues. */
  datatype Node = Node(states: set<NodeState>, work: nat)

  /** A deleted pod: whether its reconcile knew the node, and the node's work at that moment. */
  datatype Deletion = Deletion(pod: PodId, node: NodeName, known: bool, work: nat)

  /** A reconcile uncordons before it condemns. */
  datatype Phase = Idle | Uncordoning | Condemning

  datatype State = State(
    nodes: map<NodeName, Node>,       // slurmctld
    view: map<NodeName, SlurmNode>,   // the client's cache
    client: bool,                     // there is a client for the NodeSet's controller
    known: set<NodeName>,             // registered at the refresh, and not anew since
    phase: Phase,
    checked: set<PodId>,              // pods that passed their check and are not yet deleted
    deletions: seq<Deletion>)

  datatype Event =
    | Change(node: NodeName, to: Node)
    | Register(node: NodeName, to: Node)
    | Unregister(node: NodeName)
    | Refresh(node: NodeName)
    | SetClient(client: bool)
    | BeginReconcile(reasons: map<NodeName, string>)
    | Drain(node: NodeName, reason: string)
    | Undrain(node: NodeName, reason: string)
    | CheckPod(pod: PodId)
    | DeletePod(pod: PodId)
    | EndReconcile

  /** slurmctld reports a node busy exactly while it has work. */
  predicate Reported(n: Node) {
    IsBusy(n.states) <==> n.work > 0
  }

  /** How a node may change by itself or by an administrator: work starts only while it is not
      draining, and nobody but the operator takes a drain back. */
  predicate CanBecome(n: Node, m: Node) {
    && Reported(m)
    && (m.work > n.work ==> !IsDraining(n.states))
    && (IsDraining(n.states) ==> IsDraining(m.states))
  }

  function Seen(n: Node, reason: string): SlurmNode { SlurmNode(n.states, reason) }

  function ReasonOf(reasons: map<NodeName, string>, n: NodeName): string {
    if n in reasons then reasons[n] else ""
  }

  /** Slurmctld and the cache by themselves: names come and go freely, also while cached. */
  function Around(s: State, e: Event): State {
    match e
    case Change(n, to) =>
      if n in s.nodes && CanBecome(s.nodes[n], to) then s.(nodes := s.nodes[n := to]) else s
    case Register(n, to) =>
      if n !in s.nodes && Reported(to) then s.(nodes := s.nodes[n := to]) else s
    case Unregister(n) => s.(nodes := s.nodes - {n}, known := s.known - {n})
    case Refresh(n) =>
      s.(view := if n in s.nodes then s.view[n := Seen(s.nodes[n], "")] else s.view - {n})
    case SetClient(client) => if s.phase.Idle? then s.(client := client) else s
    case _ => s
  }

  /** The operator. Without a client nothing is refreshed, and every node counts as drained. */
  function Operator(name: PodId -> NodeName, s: State, e: Event): State {
    match e
    case BeginReconcile(reasons) =>
      if !s.phase.Idle? then s
      else if s.client then
        s.(view := map n | n in s.nodes :: Seen(s.nodes[n], ReasonOf(reasons, n)),
           known := s.nodes.Keys, phase := Uncordoning)
      else s.(known := {}, phase := Uncordoning)
    case Drain(n, reason) =>
      if !s.phase.Idle? && s.client && n in s.nodes then
        var to := s.nodes[n].(states := (s.nodes[n].states - {UNDRAIN}) + {DRAIN});
        s.(nodes := s.nodes[n := to], view := s.view[n := Seen(to, reason)])
      else s
    case Undrain(n, reason) =>
      if s.phase.Uncordoning? && s.client && n in s.nodes then
        var to := s.nodes[n].(states := s.nodes[n].states - {DRAIN, UNDRAIN});
        s.(nodes := s.nodes[n := to], view := s.view[n := Seen(to, reason)])
      else s
    case CheckPod(p) =>
      if s.phase.Idle? then s
      else if CheckPasses(s, name(p)) then s.(checked := s.checked + {p}, phase := Condemning)
      else s.(checked := s.checked - {p}, phase := Condemning)
    case DeletePod(p) =>
      if p in s.checked then
        var n := name(p);
        var work := if n in s.nodes then s.nodes[n].work else 0;
        s.(checked := s.checked - {p}, deletions := s.deletions + [Deletion(p, n, n in s.known, work)])
      else s
    case EndReconcile => s.(checked := {}, known := {}, phase := Idle)
    case _ => s
  }

  /** IsNodeDrained: a missing client and a node the cache misses count as drained. */
  predicate CheckPasses(s: State, n: NodeName) {
    s.client && n in s.view ==> IsDrained(s.view[n].states)
  }

  function Step(name: PodId -> NodeName, s: State, e: Event): State {
    Operator(name, Around(s, e), e)
  }

  function Run(name: PodId -> NodeName, s: State, es: seq<Event>): State
    decreases |es|
  {
    if es == [] then s else Run(name, Step(name, s, es[0]), es[1..])
  }

  ghost predicate Init(s: State) {
    && (forall n :: n in s.nodes ==> Reported(s.nodes[n]))
    && s.known == {} && s.phase == Idle && s.checked == {} && s.deletions == []
  }

  /** The cache holds every node the reconcile knows, however old the copy is, and a copy that is
      drained belongs to a node that is; a pod that passed its check still has a drained node;
      and so had every pod deleted so far. */
  ghost predicate Inv(name: PodId -> NodeName, s: State) {
    && (forall n :: n in s.nodes ==> Reported(s.nodes[n]))
    && (forall n :: n in s.known ==> s.client && n in s.nodes && n in s.view)
    && (forall n :: n in s.known && IsDrained(s.view[n].states) ==> IsDrained(s.nodes[n].states))
    && (s.checked != {} ==> s.phase == Condemning)
    && (forall p :: p in s.checked && name(p) in s.known ==> IsDrained(s.nodes[name(p)].states))
    && (s.phase == Idle ==> s.known == {})
    && (forall i :: 0 <= i < |s.deletions| && s.deletions[i].known ==> s.deletions[i].work == 0)
  }

  lemma InvAround(name: PodId -> NodeName, s: State, e: Event)
    requires Inv(name, s)
    ensures Inv(name, Around(s, e))
  {
  }

  lemma InvOperator(name: PodId -> NodeName, s: State, e: Event)
    requires Inv(name, s)
    ensures Inv(name, Operator(name, s, e))
  {
  }

  lemma InvStep(name: PodId -> NodeName, s: State, e: Event)
    requires Inv(name, s)
    ensures Inv(name, Step(name, s, e))
  {
    InvAround(name, s, e);
    InvOperator(name, Around(s, e), e);
  }

  lemma {:induction false} InvRun(name: PodId -> NodeName, s: State, es: seq<Event>)
    requires Inv(name, s)
    ensures Inv(name, Run(name, s, es))
    decreases |es|
  {
    if es != [] {
      InvStep(name, s, es[0]);
      InvRun(name, Step(name, s, es[0]), es[1..]);
    }
  }

  /** Drain before delete: in every interleaving of jobs, administrators, nodes that come and go,
      cache refreshes and operator steps, a pod whose Slurm node was registered when its reconcile
      began, and was not registered anew since, has no work at the moment it is deleted. */
  lemma DeletedPodsAreIdle(name: PodId -> NodeName, s: State, es: seq<Event>)
    requires Init(s)
    ensures var t := Run(name, s, es);
            forall i :: 0 <= i < |t.deletions| && t.deletions[i].known ==> t.deletions[i].work == 0
  {
    InvRun(name, s, es);
  }

  /** What the operator's steps bring about in slurmctld and in its cache, while a reconcile runs. */
  lemma OperatorActs(name: PodId -> NodeName, s: State, n: NodeName, reason: string)
    requires !s.phase.Idle? && s.client && n in s.nodes
    ensures var t := Step(name, s, Drain(n, reason));
            n in t.nodes && IsDraining(t.nodes[n].states) && n in t.view && t.view[n] == Seen(t.nodes[n], reason)
    ensures s.phase.Uncordoning? ==>
              var t := Step(name, s, Undrain(n, reason));
              n in t.nodes && DRAIN !in t.nodes[n].states && n in t.view && t.view[n] == Seen(t.nodes[n], reason)
  {
  }

  /** The refresh at the beginning of a reconcile shows every node as it is, and no other. */
  lemma RefreshShowsAll(name: PodId -> NodeName, s: State, reasons: map<NodeName, string>)
    requires s.phase.Idle? && s.client
    ensures var t := Step(name, s, BeginReconcile(reasons));
            && t.view.Keys == s.nodes.Keys == t.known && t.nodes == s.nodes
            && forall n :: n in t.view ==> t.view[n].states == s.nodes[n].states
  {
  }

  /** Exactly when a pod that is checked and deleted on the spot has work, in every state a run
      reaches: its node works, the reconcile does not know it, and the cache either misses it or
      still shows its drained predecessor (or there is no client). */
  lemma BusyDeletionIff(name: PodId -> NodeName, s: State, es: seq<Event>, p: PodId)
    requires Init(s) && !Run(name, s, es).phase.Idle?
    ensures var t := Run(name, s, es);
            var n := name(p);
            var u := Step(name, Step(name, t, CheckPod(p)), DeletePod(p));
            (|u.deletions| > |t.deletions| && u.deletions[|t.deletions|].work > 0) <==>
            && n in t.nodes && t.nodes[n].work > 0 && n !in t.known
            && (!t.client || n !in t.view || IsDrained(t.view[n].states))
  {
    InvRun(name, s, es);
  }

  /** And this happens: a node that registers and starts work after the refresh is missed by the
      cache, and its pod is deleted under the job. */
  lemma LateNodeIsDeletedBusy(name: PodId -> NodeName, s: State, p: PodId)
    requires Init(s) && s.nodes == map[] && s.client
    ensures var work := Node({ALLOCATED}, 1);
            var t := Run(name, s, [BeginReconcile(map[]), Register(name(p), work), CheckPod(p), DeletePod(p)]);
            t.deletions == [Deletion(p, name(p), false, 1)]
  {
    var begin, register := BeginReconcile(map[]), Register(name(p), Node({ALLOCATED}, 1));
    var a := Step(name, s, begin);
    assert a.view == map[] && a.nodes == map[] && a.known == {};
    var b := Step(name, a, register);
    DeletedUnseen(name, b, p);
    var c := Step(name, b, CheckPod(p));
    RunCons(name, c, DeletePod(p), []);
    RunCons(name, b, CheckPod(p), [DeletePod(p)]);
    RunCons(name, a, register, [CheckPod(p), DeletePod(p)]);
    RunCons(name, s, begin, [register, CheckPod(p), DeletePod(p)]);
  }

  lemma DeletedUnseen(name: PodId -> NodeName, s: State, p: PodId)
    requires !s.phase.Idle? && name(p) in s.nodes && name(p) !in s.view && name(p) !in s.known
    ensures Step(name, Step(name, s, CheckPod(p)), DeletePod(p)).deletions
         == s.deletions + [Deletion(p, name(p), false, s.nodes[name(p)].work)]
  {
    var c := Step(name, s, CheckPod(p));
    assert p in c.checked && c.nodes == s.nodes && c.known == s.known;
  }

  lemma RunCons(name: PodId -> NodeName, s: State, e: Event, es: seq<Event>)
    ensures Run(name, s, [e] + es) == Run(name, Step(name, s, e), es)
  {
    assert ([e] + es)[1..] == es;
  }
}
