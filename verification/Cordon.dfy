/** Cordoning, draining and deleting one pod: which requests the operator sends to slurmctld
    and what they may not touch. The operator reads Slurm nodes from its client's cache, several
    times in one operation, while slurmctld and the cache move on. */
module Cordon {
  import opened Options
  import opened SlurmNodes

  /** The Kubernetes node of the pod. */
  datatype KubeNode = Missing | Present(unschedulable: bool, cordonReason: Option<string>) {
    predicate Unschedulable() { Present? && unschedulable }
  }

  /** How the API server or slurmctld answers a write; a tolerated answer changes nothing. */
  datatype Answer = Accepted | Tolerated | Refused

  /** What one read of the pod's Slurm node comes to. */
  datatype SlurmLookup =
    | NoClient
    | Unregistered
    | SlurmFailed
    | Registered(node: SlurmNode)

  datatype Update = DrainUpdate(reason: string) | UndrainUpdate(reason: string)

  /** A request, with the Kubernetes node as it was and whether looking it up failed. */
  datatype Sent = Sent(update: Update, unschedulable: bool, lookupFailed: bool)

  /** The pod, its Kubernetes node and how looking that up goes, its node in slurmctld and the
      cached copy, the requests sent, and how writes are answered. */
  datatype World = World(
    podKey: string, nodeName: string, cordoned: bool, terminating: bool, deleted: bool,
    kube: KubeNode, kubeFails: bool, kubeFailsAgain: bool,
    client: bool, node: Option<SlurmNode>, cache: Option<SlurmNode>, sent: seq<Sent>,
    apiAnswer: Answer, updateAnswer: Answer)

  /** The world after an operation and whether the operation returned an error. */
  datatype Result = Result(world: World, err: bool)

  // ---- Time passing between the reads and writes of an operation ----

  datatype Change = Same | Becomes(node: Option<SlurmNode>)

  /** Before a read or a request: the node may change, the cache may catch up, the read may fail. */
  datatype Moment = Moment(change: Change, refresh: bool, fails: bool)

  const CALM := Moment(Same, false, false)

  function At(ms: seq<Moment>, i: nat): Moment { if i < |ms| then ms[i] else CALM }

  function Pass(w: World, m: Moment): World {
    var node := if m.change.Becomes? then m.change.node else w.node;
    w.(node := node, cache := if m.refresh then node else w.cache)
  }

  function Get(w: World, m: Moment): SlurmLookup {
    if !w.client then NoClient
    else if m.fails then SlurmFailed
    else if w.cache.None? then Unregistered
    else Registered(w.cache.value)
  }

  // ---- The operations ----

  function Applied(n: SlurmNode, update: Update): SlurmNode {
    if update.DrainUpdate? then ApplyDrain(n, update.reason) else ApplyUndrain(n, update.reason)
  }

  /** A request changes the node there is; the client's cache takes over what it wrote. */
  function Request(w: World, update: Update): Result {
    var w' := w.(sent := w.sent + [Sent(update, w.kube.Unschedulable(), w.kubeFails)]);
    if w.updateAnswer.Accepted? && w.node.Some? then
      var n := Applied(w.node.value, update);
      Result(w'.(node := Some(n), cache := Some(n)), false)
    else Result(w', w.updateAnswer.Refused?)
  }

  function MakeNodeDrain(w: World, reason: string, ms: seq<Moment>, i: nat): Result {
    var g := Pass(w, At(ms, i));
    match Get(g, At(ms, i))
    case NoClient => Result(g, false)
    case Unregistered => Result(g, false)
    case SlurmFailed => Result(g, true)
    case Registered(n) =>
      var r := Prefixed(reason);
      if DRAIN in n.states && n.reason == r then Result(g, false)
      else Request(Pass(g, At(ms, i + 1)), DrainUpdate(r))
  }

  function MakeNodeUndrain(w: World, reason: string, ms: seq<Moment>, i: nat): Result {
    var g := Pass(w, At(ms, i));
    match Get(g, At(ms, i))
    case NoClient => Result(g, false)
    case Unregistered => Result(g, false)
    case SlurmFailed => Result(g, true)
    case Registered(n) =>
      if DRAIN !in n.states || UNDRAIN in n.states then Result(g, false)
      else Request(Pass(g, At(ms, i + 1)), UndrainUpdate(Prefixed(reason)))
  }

  function SetCordon(w: World, cordon: bool): Result {
    if w.cordoned == cordon then Result(w, false)
    else if w.apiAnswer.Accepted? then Result(w.(cordoned := cordon), false)
    else Result(w, true)
  }

  /** IsNodeDrain, IsNodeReasonOurs and IsNodeDownForUnresponsive on what a read came to: without
      a client or a registered node they say true. */
  predicate SaysDrain(l: SlurmLookup) { l.Registered? ==> DRAIN in l.node.states }
  predicate SaysOurs(l: SlurmLookup) { l.Registered? ==> IsReasonOurs(l.node) }
  predicate SaysUnresponsive(l: SlurmLookup) { l.Registered? ==> IsUnresponsive(l.node) }

  function PodReason(podKey: string, what: string): (r: string)
    ensures r != ""
  {
    "Pod (" + podKey + ") " + what
  }

  function MakePodCordonAndDrain(w: World, message: string, ms: seq<Moment>, i: nat): Result {
    var c := SetCordon(w, true);
    if c.err then c else
      var g := Pass(c.world, At(ms, i));
      var l := Get(g, At(ms, i));
      if l.SlurmFailed? then Result(g, true)
      else if SaysDrain(l) then Result(g, false)
      else MakeNodeDrain(g, if message != "" then message else PodReason(w.podKey, "has been cordoned"), ms, i + 1)
  }

  function MakePodUncordonAndUndrain(w: World, ms: seq<Moment>, i: nat): Result {
    var c := SetCordon(w, false);
    if c.err then c else
      var g := Pass(c.world, At(ms, i));
      var l := Get(g, At(ms, i));
      if l.SlurmFailed? then Result(g, true)
      else if !SaysDrain(l) then Result(g, false)
      else MakeNodeUndrain(g, PodReason(w.podKey, "has been uncordoned"), ms, i + 1)
  }

  /** syncCordon for one pod. */
  function SyncCordon(w: World, ms: seq<Moment>): Result {
    if w.kubeFails then Result(w, true)
    else if w.kube.Missing? then Result(w, false)
    else
      var g1 := Pass(w, At(ms, 0));
      var l1 := Get(g1, At(ms, 0));
      if l1.SlurmFailed? then Result(g1, true) else
        var g2 := Pass(g1, At(ms, 1));
        var l2 := Get(g2, At(ms, 1));
        if l2.SlurmFailed? then Result(g2, true)
        else if !SaysOurs(l2) || SaysUnresponsive(l1) then Result(g2, false)
        else SyncCordonSwitch(g2, ms)
  }

  function SyncCordonSwitch(w: World, ms: seq<Moment>): Result
    requires w.kube.Present?
  {
    if w.kube.unschedulable then
      if w.kubeFailsAgain then Result(w, true)
      else MakePodCordonAndDrain(w, CordonReason(w), ms, 2)
    else if w.cordoned then MakeNodeDrain(w, PodReason(w.podKey, "was cordoned"), ms, 2)
    else MakeNodeUndrain(w, PodReason(w.podKey, "was uncordoned"), ms, 2)
  }

  function CordonReason(w: World): string
    requires w.kube.Present?
  {
    if w.kube.cordonReason.Some? then w.kube.cordonReason.value
    else "Node (" + w.nodeName + ") was cordoned, Pod (" + w.podKey + ") must be cordoned"
  }

  /** syncPodUncordon: a Kubernetes node that cannot be looked up counts as schedulable. */
  function SyncPodUncordon(w: World, ms: seq<Moment>): Result {
    if !w.kubeFails && w.kube.Unschedulable() then Result(w, false)
    else
      var g := Pass(w, At(ms, 0));
      var l := Get(g, At(ms, 0));
      if l.SlurmFailed? then Result(g, true)
      else if !SaysOurs(l) then Result(g, false)
      else MakePodUncordonAndUndrain(g, ms, 1)
  }

  /** A delete whose pod is not found counts as done. */
  function DeletePod(w: World): Result {
    match w.apiAnswer
    case Accepted => Result(w.(deleted := true), false)
    case Tolerated => Result(w, false)
    case Refused => Result(w, true)
  }

  /** processCondemned. */
  function ProcessCondemned(w: World, ms: seq<Moment>): Result {
    if w.deleted || w.terminating then Result(w, false)
    else
      var g := Pass(w, At(ms, 0));
      var l := Get(g, At(ms, 0));
      if l.SlurmFailed? then Result(g, true)
      else if l.Registered? && !IsDrained(l.node.states) then
        MakePodCordonAndDrain(g, PodReason(w.podKey, "was cordoned pending termination"), ms, 1)
      else DeletePod(g)
  }

  datatype Operation = Cordoning | Uncordoning | Condemning

  function Perform(w: World, op: Operation, ms: seq<Moment>): Result {
    match op
    case Cordoning => SyncCordon(w, ms)
    case Uncordoning => SyncPodUncordon(w, ms)
    case Condemning => ProcessCondemned(w, ms)
  }

  // ---- Runs ----

  /** A step of a run: an operation, the refresh that begins a reconcile, or time passing. */
  datatype Step =
    | Operate(op: Operation, ms: seq<Moment>)
    | Refresh
    | Elapse(m: Moment, kube: KubeNode, kubeFails: bool, kubeFailsAgain: bool, cordoned: bool,
             apiAnswer: Answer, updateAnswer: Answer)

  function Refreshed(w: World): World { if w.client then w.(cache := w.node) else w }

  function Next(w: World, s: Step): World {
    match s
    case Operate(op, ms) => Perform(w, op, ms).world
    case Refresh => Refreshed(w)
    case Elapse(m, kube, kubeFails, kubeFailsAgain, cordoned, apiAnswer, updateAnswer) =>
      Pass(w, m).(kube := kube, kubeFails := kubeFails, kubeFailsAgain := kubeFailsAgain,
                  cordoned := cordoned, apiAnswer := apiAnswer, updateAnswer := updateAnswer)
  }

  function RunAll(w: World, steps: seq<Step>): World
    decreases |steps|
  {
    if steps == [] then w else RunAll(Next(w, steps[0]), steps[1..])
  }

  // ---- External drains ----

  /** A drain somebody else made, for this reason. */
  predicate Shows(n: Option<SlurmNode>, reason: string) {
    n.Some? && IsExternalDrain(n.value) && n.value.reason == reason
  }

  /** Nobody else takes the drain back, whatever else becomes of the node. */
  ghost predicate HandsOff(m: Moment, reason: string) {
    m.change.Becomes? ==> Shows(m.change.node, reason)
  }

  ghost predicate AllHandsOff(ms: seq<Moment>, reason: string) {
    forall m :: m in ms ==> HandsOff(m, reason)
  }

  ghost predicate StepHandsOff(s: Step, reason: string) {
    match s
    case Operate(_, ms) => AllHandsOff(ms, reason)
    case Refresh => true
    case Elapse(m, _, _, _, _, _, _) => HandsOff(m, reason)
  }

  /** The drain stands, and the cache, if there is one to read, shows it. */
  ghost predicate DrainSeen(w: World, reason: string) {
    Shows(w.node, reason) && (w.client ==> Shows(w.cache, reason))
  }

  lemma PassKeepsDrain(w: World, ms: seq<Moment>, i: nat, reason: string)
    requires DrainSeen(w, reason) && AllHandsOff(ms, reason)
    ensures DrainSeen(Pass(w, At(ms, i)), reason)
  {
    assert i < |ms| ==> ms[i] in ms;
  }

  /** An operation that sees the drain leaves it alone, however time passes between its reads. */
  lemma DrainSeenIsKept(w: World, op: Operation, ms: seq<Moment>, reason: string)
    requires DrainSeen(w, reason) && AllHandsOff(ms, reason)
    ensures DrainSeen(Perform(w, op, ms).world, reason) && Perform(w, op, ms).world.sent == w.sent
  {
    PassKeepsDrain(w, ms, 0, reason);
    var g := Pass(w, At(ms, 0));
    match op
    case Cordoning =>
      PassKeepsDrain(g, ms, 1, reason);
    case Uncordoning =>
      if !w.client { UncordonWithoutClient(g, ms, reason); }
    case Condemning =>
      DrainedNotSentAgain(g, PodReason(w.podKey, "was cordoned pending termination"), ms, reason);
  }

  lemma UncordonWithoutClient(w: World, ms: seq<Moment>, reason: string)
    requires !w.client && DrainSeen(w, reason) && AllHandsOff(ms, reason)
    ensures var t := MakePodUncordonAndUndrain(w, ms, 1).world; DrainSeen(t, reason) && t.sent == w.sent
  {
    var c := SetCordon(w, false).world;
    PassKeepsDrain(c, ms, 1, reason);
    PassKeepsDrain(Pass(c, At(ms, 1)), ms, 2, reason);
  }

  lemma DrainedNotSentAgain(w: World, message: string, ms: seq<Moment>, reason: string)
    requires DrainSeen(w, reason) && AllHandsOff(ms, reason)
    ensures var t := MakePodCordonAndDrain(w, message, ms, 1).world; DrainSeen(t, reason) && t.sent == w.sent
  {
    PassKeepsDrain(SetCordon(w, true).world, ms, 1, reason);
  }

  lemma ExternalDrainStep(w: World, s: Step, reason: string)
    requires DrainSeen(w, reason) && StepHandsOff(s, reason)
    ensures DrainSeen(Next(w, s), reason) && Next(w, s).sent == w.sent
  {
    if s.Operate? { DrainSeenIsKept(w, s.op, s.ms, reason); }
  }

  lemma {:induction false} ExternalDrainRun(w: World, steps: seq<Step>, reason: string)
    requires DrainSeen(w, reason) && forall s :: s in steps ==> StepHandsOff(s, reason)
    ensures DrainSeen(RunAll(w, steps), reason) && RunAll(w, steps).sent == w.sent
    decreases |steps|
  {
    if steps != [] {
      ExternalDrainStep(w, steps[0], reason);
      ExternalDrainRun(Next(w, steps[0]), steps[1..], reason);
    }
  }

  /** A drain somebody else made before a reconcile refreshed its cache is never touched, however
      old the cache was: through any run of cordon, uncordon and condemn operations from then on,
      with time passing between any two of their reads, DRAIN and the reason stay and no request
      is sent. */
  lemma ExternalDrainIsInviolable(w: World, steps: seq<Step>, reason: string)
    requires Shows(w.node, reason) && forall s :: s in steps ==> StepHandsOff(s, reason)
    ensures var t := RunAll(w, [Refresh] + steps);
            Shows(t.node, reason) && t.sent == w.sent
  {
    assert ([Refresh] + steps)[1..] == steps;
    ExternalDrainRun(Refreshed(w), steps, reason);
  }

  /** The same in plain terms: any reason that is not empty and does not begin with the operator's name
      keeps its drain. */
  lemma ForeignDrainSurvives(w: World, steps: seq<Step>)
    requires w.node.Some? && DRAIN in w.node.value.states && w.node.value.reason != ""
    requires forall rest :: w.node.value.reason != "slurm-operator:" + rest
    requires forall s :: s in steps ==> StepHandsOff(s, w.node.value.reason)
    ensures var t := RunAll(w, [Refresh] + steps);
            && t.node.Some? && DRAIN in t.node.value.states && t.node.value.reason == w.node.value.reason
            && t.sent == w.sent
  {
    OursIff(w.node.value);
    ExternalDrainIsInviolable(w, steps, w.node.value.reason);
  }

  /** A drain made after the refresh is not safe: while the cache still shows the node undrained,
      the drain of a cordoned pod overwrites its reason. */
  lemma LaterDrainIsOverwritten(w: World, reason: string)
    requires Shows(w.node, reason) && w.client && w.cache.Some?
    requires IsReasonOurs(w.cache.value) && !IsUnresponsive(w.cache.value) && DRAIN !in w.cache.value.states
    requires w.cordoned && !w.kubeFails && w.kube.Present? && !w.kube.unschedulable && w.updateAnswer.Accepted?
    ensures var t := SyncCordon(w, []).world;
            t.node.Some? && IsReasonOurs(t.node.value) && t.node.value.reason != reason
  {
  }

  /** Nor is one whose node the cache misses at first: "not found" counts as our reason, and if the
      cache has caught up by the next read, the node is undrained. */
  lemma MissedDrainIsUndone(w: World, reason: string)
    requires Shows(w.node, reason) && UNDRAIN !in w.node.value.states && w.client && w.cache.None?
    requires !w.kube.Unschedulable() && !w.cordoned && w.updateAnswer.Accepted?
    ensures var t := SyncPodUncordon(w, [CALM, Moment(Same, true, false)]).world;
            t.node.Some? && DRAIN !in t.node.value.states
  {
    var ms := [CALM, Moment(Same, true, false)];
    assert At(ms, 0) == CALM && At(ms, 1) == Moment(Same, true, false) && At(ms, 2) == CALM && At(ms, 3) == CALM;
  }

  /** DRAIN is what protects: a node that is not draining loses its foreign reason when its pod
      is condemned. */
  lemma ForeignReasonAloneIsNotSafe(w: World)
    requires w.client && w.cache == w.node && w.node.Some?
    requires !IsReasonOurs(w.node.value) && DRAIN !in w.node.value.states
    requires !w.deleted && !w.terminating && w.apiAnswer.Accepted? && w.updateAnswer.Accepted?
    ensures var t := ProcessCondemned(w, []).world;
            t.node.Some? && IsReasonOurs(t.node.value) && DRAIN in t.node.value.states
  {
  }

  // ---- What the operator sends ----

  /** What every request satisfies: the reason carries the operator's prefix, and an undrain goes
      out for an unschedulable Kubernetes node only if looking that node up failed. */
  ghost predicate Proper(s: Sent) {
    && HasPrefix(s.update.reason, NODE_REASON_PREFIX)
    && (s.update.UndrainUpdate? && s.unschedulable ==> s.lookupFailed)
  }

  ghost predicate AllProper(sent: seq<Sent>) {
    forall i :: 0 <= i < |sent| ==> Proper(sent[i])
  }

  /** An operation sends nothing, or one request. */
  ghost predicate SendsAtMost(w: World, t: World, request: Sent) {
    t.sent == w.sent || t.sent == w.sent + [request]
  }

  function DrainRequest(w: World, reason: string): Sent {
    Sent(DrainUpdate(Prefixed(reason)), w.kube.Unschedulable(), w.kubeFails)
  }

  function UndrainRequest(w: World, reason: string): Sent {
    Sent(UndrainUpdate(Prefixed(reason)), w.kube.Unschedulable(), w.kubeFails)
  }

  lemma DrainSends(w: World, reason: string, ms: seq<Moment>, i: nat)
    ensures SendsAtMost(w, MakeNodeDrain(w, reason, ms, i).world, DrainRequest(w, reason))
  {
  }

  /** An undrain is sent exactly when the node read drains and is not being undrained. */
  lemma UndrainSends(w: World, reason: string, ms: seq<Moment>, i: nat)
    ensures var l := Get(Pass(w, At(ms, i)), At(ms, i));
            MakeNodeUndrain(w, reason, ms, i).world.sent ==
            if l.Registered? && IsDraining(l.node.states) then w.sent + [UndrainRequest(w, reason)] else w.sent
  {
  }

  lemma ProperAppend(w: World, t: World, request: Sent)
    requires AllProper(w.sent) && Proper(request) && SendsAtMost(w, t, request)
    ensures AllProper(t.sent)
  {
  }

  lemma ProperUpdate(w: World, reason: string, ms: seq<Moment>, i: nat)
    requires AllProper(w.sent) && reason != ""
    ensures AllProper(MakeNodeDrain(w, reason, ms, i).world.sent)
    ensures w.kubeFails || !w.kube.Unschedulable() ==> AllProper(MakeNodeUndrain(w, reason, ms, i).world.sent)
  {
    DrainSends(w, reason, ms, i);
    ProperAppend(w, MakeNodeDrain(w, reason, ms, i).world, DrainRequest(w, reason));
    if w.kubeFails || !w.kube.Unschedulable() {
      UndrainSends(w, reason, ms, i);
      ProperAppend(w, MakeNodeUndrain(w, reason, ms, i).world, UndrainRequest(w, reason));
    }
  }

  lemma ProperCordonAndDrain(w: World, message: string, ms: seq<Moment>, i: nat)
    requires AllProper(w.sent)
    ensures AllProper(MakePodCordonAndDrain(w, message, ms, i).world.sent)
  {
    var own := PodReason(w.podKey, "has been cordoned");
    ProperUpdate(Pass(SetCordon(w, true).world, At(ms, i)), if message != "" then message else own, ms, i + 1);
  }

  lemma ProperUncordon(w: World, ms: seq<Moment>)
    requires AllProper(w.sent)
    ensures AllProper(SyncPodUncordon(w, ms).world.sent)
  {
    var reason := PodReason(w.podKey, "has been uncordoned");
    ProperUpdate(Pass(SetCordon(Pass(w, At(ms, 0)), false).world, At(ms, 1)), reason, ms, 2);
  }

  lemma ProperSwitch(w: World, ms: seq<Moment>)
    requires AllProper(w.sent) && w.kube.Present?
    ensures AllProper(SyncCordonSwitch(w, ms).world.sent)
  {
    ProperCordonAndDrain(w, CordonReason(w), ms, 2);
    ProperUpdate(w, PodReason(w.podKey, "was cordoned"), ms, 2);
    ProperUpdate(w, PodReason(w.podKey, "was uncordoned"), ms, 2);
  }

  lemma ProperCordon(w: World, ms: seq<Moment>)
    requires AllProper(w.sent)
    ensures AllProper(SyncCordon(w, ms).world.sent)
  {
    if w.kube.Present? { ProperSwitch(Pass(Pass(w, At(ms, 0)), At(ms, 1)), ms); }
  }

  lemma ProperCondemn(w: World, ms: seq<Moment>)
    requires AllProper(w.sent)
    ensures AllProper(ProcessCondemned(w, ms).world.sent)
  {
    ProperCordonAndDrain(Pass(w, At(ms, 0)), PodReason(w.podKey, "was cordoned pending termination"), ms, 1);
  }

  lemma ProperStep(w: World, s: Step)
    requires AllProper(w.sent)
    ensures AllProper(Next(w, s).sent)
  {
    if s.Operate? {
      ProperCordon(w, s.ms);
      ProperUncordon(w, s.ms);
      ProperCondemn(w, s.ms);
    }
  }

  /** Through every run, every reason the operator writes carries its prefix, and it undrains a
      pod's node while the Kubernetes node is unschedulable only after failing to look that up. */
  lemma {:induction false} RequestsAreProper(w: World, steps: seq<Step>)
    requires AllProper(w.sent)
    ensures AllProper(RunAll(w, steps).sent)
    decreases |steps|
  {
    if steps != [] {
      ProperStep(w, steps[0]);
      RequestsAreProper(Next(w, steps[0]), steps[1..]);
    }
  }

  /** An operation sends an undrain while the Kubernetes node is unschedulable. */
  ghost predicate UndrainsUnschedulable(w: World, op: Operation, ms: seq<Moment>) {
    var t := Perform(w, op, ms).world;
    |t.sent| > |w.sent| && t.sent[|w.sent|].update.UndrainUpdate? && t.sent[|w.sent|].unschedulable
  }

  /** That operation's three reads: the reason, the DRAIN flag, the node to undrain. */
  ghost predicate ReadsInviteUndrain(w: World, ms: seq<Moment>) {
    var g1 := Pass(w, At(ms, 0));
    var g2 := Pass(g1, At(ms, 1));
    var g3 := Pass(g2, At(ms, 2));
    var l1, l2, l3 := Get(g1, At(ms, 0)), Get(g2, At(ms, 1)), Get(g3, At(ms, 2));
    && !l1.SlurmFailed? && SaysOurs(l1) && !l2.SlurmFailed? && SaysDrain(l2)
    && l3.Registered? && IsDraining(l3.node.states)
  }

  lemma UncordonSends(w: World, ms: seq<Moment>)
    requires w.kube.Unschedulable()
    ensures UndrainsUnschedulable(w, Uncordoning, ms) <==>
            w.kubeFails && ReadsInviteUndrain(w, ms) && (w.cordoned ==> w.apiAnswer.Accepted?)
  {
    if w.kubeFails { UncordonAndUndrainSends(Pass(w, At(ms, 0)), ms); }
  }

  lemma UncordonAndUndrainSends(w: World, ms: seq<Moment>)
    ensures var g := Pass(w, At(ms, 1));
            var l, m := Get(g, At(ms, 1)), Get(Pass(g, At(ms, 2)), At(ms, 2));
            MakePodUncordonAndUndrain(w, ms, 1).world.sent ==
            if (w.cordoned ==> w.apiAnswer.Accepted?) && !l.SlurmFailed? && SaysDrain(l)
               && m.Registered? && IsDraining(m.node.states)
            then w.sent + [UndrainRequest(w, PodReason(w.podKey, "has been uncordoned"))] else w.sent
  {
    var c := SetCordon(w, false).world;
    UndrainSends(Pass(c, At(ms, 1)), PodReason(w.podKey, "has been uncordoned"), ms, 2);
  }

  lemma OthersSendNone(w: World, ms: seq<Moment>)
    requires w.kube.Unschedulable()
    ensures !UndrainsUnschedulable(w, Cordoning, ms) && !UndrainsUnschedulable(w, Condemning, ms)
  {
    var g := Pass(Pass(w, At(ms, 0)), At(ms, 1));
    CordonSendsDrain(g, CordonReason(g), ms, 2);
    CordonSendsDrain(Pass(w, At(ms, 0)), PodReason(w.podKey, "was cordoned pending termination"), ms, 1);
  }

  lemma CordonSendsDrain(w: World, message: string, ms: seq<Moment>, i: nat)
    ensures var t := MakePodCordonAndDrain(w, message, ms, i).world;
            t.sent == w.sent || (|t.sent| == |w.sent| + 1 && t.sent[|w.sent|].update.DrainUpdate?)
  {
    var reason := if message != "" then message else PodReason(w.podKey, "has been cordoned");
    DrainSends(Pass(SetCordon(w, true).world, At(ms, i)), reason, ms, i + 1);
  }

  /** Exactly when a pod on an unschedulable Kubernetes node is undrained: by the uncordon, which
      takes a node it cannot look up for schedulable, if its reads say the drain is ours and the
      annotation is off or comes off. */
  lemma UndrainsUnschedulableIff(w: World, op: Operation, ms: seq<Moment>)
    requires w.kube.Unschedulable()
    ensures UndrainsUnschedulable(w, op, ms) <==>
            && op == Uncordoning && w.kubeFails
            && ReadsInviteUndrain(w, ms) && (w.cordoned ==> w.apiAnswer.Accepted?)
  {
    if op == Uncordoning { UncordonSends(w, ms); } else { OthersSendNone(w, ms); }
  }

  /** With nothing happening between the reads: the cached node drains for a reason of ours. */
  lemma UndrainsUnschedulableCalm(w: World, op: Operation)
    requires w.kube.Unschedulable()
    ensures UndrainsUnschedulable(w, op, []) <==>
            && op == Uncordoning && w.kubeFails && w.client && w.cache.Some?
            && IsReasonOurs(w.cache.value) && IsDraining(w.cache.value.states)
            && (w.cordoned ==> w.apiAnswer.Accepted?)
  {
    UndrainsUnschedulableIff(w, op, []);
  }

  // ---- What an operation brings about ----

  /** Registered, with an up-to-date cache, every write accepted and no lookup failing. */
  ghost predicate Plain(w: World) {
    && w.client && w.node.Some? && w.cache == w.node && !w.kubeFails && !w.kubeFailsAgain
    && w.apiAnswer.Accepted? && w.updateAnswer.Accepted?
  }

  ghost predicate MayTouch(n: SlurmNode) {
    && (n.reason == "" || exists rest :: n.reason == "slurm-operator:" + rest)
    && !(DOWN in n.states && exists before, after :: n.reason == before + "Not responding" + after)
  }

  lemma MayTouchIff(n: SlurmNode)
    ensures MayTouch(n) <==> IsReasonOurs(n) && !IsUnresponsive(n)
  {
    OursIff(n);
    UnresponsiveIff(n);
  }

  lemma PlainDrain(w: World, reason: string, i: nat)
    requires Plain(w) && reason != ""
    ensures var r := MakeNodeDrain(w, reason, [], i);
            && !r.err && Plain(r.world) && r.world.cordoned == w.cordoned
            && DRAIN in r.world.node.value.states && r.world.node.value.reason == "slurm-operator: " + reason
            && (UNDRAIN in r.world.node.value.states ==> r.world.node == w.node)
  {
    assert Pass(w, CALM) == w;
    PrefixedText(reason);
  }

  lemma PlainUndrain(w: World, reason: string, i: nat)
    requires Plain(w) && reason != ""
    ensures var r := MakeNodeUndrain(w, reason, [], i);
            && !r.err && Plain(r.world) && r.world.cordoned == w.cordoned
            && !IsDraining(r.world.node.value.states)
            && (if IsDraining(w.node.value.states)
                then r.world.node.value.reason == "slurm-operator: " + reason
                else r.world.node == w.node)
  {
    assert Pass(w, CALM) == w;
    PrefixedText(reason);
  }

  lemma PlainCordonAndDrain(w: World, message: string, i: nat)
    requires Plain(w)
    ensures var r := MakePodCordonAndDrain(w, message, [], i);
            var own := "Pod (" + w.podKey + ") has been cordoned";
            && !r.err && Plain(r.world) && r.world.cordoned && DRAIN in r.world.node.value.states
            && (if DRAIN in w.node.value.states then r.world.node == w.node
                else r.world.node.value.reason == "slurm-operator: " + (if message == "" then own else message))
  {
    var v := w.(cordoned := true);
    assert SetCordon(w, true) == Result(v, false) && Pass(v, CALM) == v;
    var reason := if message != "" then message else PodReason(w.podKey, "has been cordoned");
    assert PodReason(w.podKey, "has been cordoned") == "Pod (" + w.podKey + ") has been cordoned";
    PlainDrain(v, reason, i + 1);
  }

  /** A node the operator may not touch, or does not find, is left as it is. */
  lemma CordonLeavesOthers(w: World)
    requires w.cache.None? || !w.client || !MayTouch(w.cache.value)
    ensures SyncCordon(w, []).world == w
  {
    assert Pass(w, CALM) == w;
    if w.cache.Some? { MayTouchIff(w.cache.value); }
  }

  /** What a pod's reason is when its Kubernetes node is cordoned: the node's annotation if it says
      anything. */
  function NodeCordonText(w: World): string
    requires w.kube.Present?
  {
    if w.kube.cordonReason.None? then "Node (" + w.nodeName + ") was cordoned, Pod (" + w.podKey + ") must be cordoned"
    else if w.kube.cordonReason.value == "" then "Pod (" + w.podKey + ") has been cordoned"
    else w.kube.cordonReason.value
  }

  lemma CordonReachesSwitch(w: World)
    requires Plain(w) && w.kube.Present? && MayTouch(w.node.value)
    ensures SyncCordon(w, []) == SyncCordonSwitch(w, [])
  {
    assert Pass(w, CALM) == w;
    MayTouchIff(w.node.value);
  }

  /** What syncCordon brings about on a cordoned Kubernetes node: the pod is cordoned and its Slurm node
      drains, for the node's reason if it did not drain before. */
  lemma CordonOfCordonedNode(w: World)
    requires Plain(w) && w.kube.Unschedulable() && MayTouch(w.node.value)
    ensures var r := SyncCordon(w, []);
            && !r.err && r.world.cordoned && r.world.node.Some? && DRAIN in r.world.node.value.states
            && (if DRAIN in w.node.value.states then r.world.node == w.node
                else r.world.node.value.reason == "slurm-operator: " + NodeCordonText(w))
  {
    CordonReachesSwitch(w);
    PlainCordonAndDrain(w, CordonReason(w), 2);
    assert |"Node (" + w.nodeName + ") was cordoned, Pod (" + w.podKey + ") must be cordoned"| > 0;
  }

  /** On a schedulable one: a cordoned pod's Slurm node drains, for the pod's own reason. */
  lemma CordonOfCordonedPod(w: World)
    requires Plain(w) && w.kube.Present? && !w.kube.unschedulable && MayTouch(w.node.value) && w.cordoned
    ensures var r := SyncCordon(w, []);
            var reason := "slurm-operator: " + ("Pod (" + w.podKey + ") was cordoned");
            && !r.err && r.world.cordoned && r.world.node.Some? && DRAIN in r.world.node.value.states
            && r.world.node.value.reason == reason
            && (IsDraining(r.world.node.value.states) <==>
                !({DRAIN, UNDRAIN} <= w.node.value.states && w.node.value.reason == reason))
  {
    CordonReachesSwitch(w);
    assert PodReason(w.podKey, "was cordoned") == "Pod (" + w.podKey + ") was cordoned";
    PlainDrain(w, PodReason(w.podKey, "was cordoned"), 2);
  }

  /** And an uncordoned pod's Slurm node does not. */
  lemma CordonOfUncordonedPod(w: World)
    requires Plain(w) && w.kube.Present? && !w.kube.unschedulable && MayTouch(w.node.value) && !w.cordoned
    ensures var r := SyncCordon(w, []);
            && !r.err && !r.world.cordoned && r.world.node.Some? && !IsDraining(r.world.node.value.states)
            && (if IsDraining(w.node.value.states)
                then r.world.node.value.reason == "slurm-operator: " + ("Pod (" + w.podKey + ") was uncordoned")
                else r.world.node == w.node)
  {
    CordonReachesSwitch(w);
    assert PodReason(w.podKey, "was uncordoned") == "Pod (" + w.podKey + ") was uncordoned";
    PlainUndrain(w, PodReason(w.podKey, "was uncordoned"), 2);
  }

  /** What syncPodUncordon brings about on a node that is not unschedulable and a reason of ours: the
      pod is uncordoned and its Slurm node does not drain. */
  lemma UncordonBringsAbout(w: World)
    requires Plain(w) && !w.kube.Unschedulable()
    requires w.node.value.reason == "" || exists rest :: w.node.value.reason == "slurm-operator:" + rest
    ensures var r := SyncPodUncordon(w, []);
            && !r.err && !r.world.cordoned && r.world.node.Some? && !IsDraining(r.world.node.value.states)
            && (if IsDraining(w.node.value.states)
                then r.world.node.value.reason == "slurm-operator: " + ("Pod (" + w.podKey + ") has been uncordoned")
                else r.world.node == w.node)
  {
    var v := w.(cordoned := false);
    OursIff(w.node.value);
    assert Pass(w, CALM) == w && SetCordon(w, false) == Result(v, false) && Pass(v, CALM) == v;
    assert PodReason(w.podKey, "has been uncordoned") == "Pod (" + w.podKey + ") has been uncordoned";
    PlainUndrain(v, PodReason(w.podKey, "has been uncordoned"), 2);
  }

  /** What processCondemned brings about: an idle draining node's pod is deleted, any other is cordoned
      and its node drains. */
  lemma CondemnBringsAbout(w: World)
    requires Plain(w) && !w.deleted && !w.terminating
    ensures var r := ProcessCondemned(w, []);
            var n := w.node.value.states;
            && !r.err
            && (r.world.deleted <==> DRAIN in n && UNDRAIN !in n && n !! {ALLOCATED, MIXED, COMPLETING})
            && (!r.world.deleted ==> r.world.cordoned && r.world.node.Some? && DRAIN in r.world.node.value.states)
  {
    assert Pass(w, CALM) == w;
    PlainCordonAndDrain(w, PodReason(w.podKey, "was cordoned pending termination"), 1);
    KeepsDeleted(w, PodReason(w.podKey, "was cordoned pending termination"), [], 1);
    assert !IsBusy(w.node.value.states) <==> w.node.value.states !! {ALLOCATED, MIXED, COMPLETING};
  }

  /** A pod on its way out, or gone, is left alone. */
  lemma TerminatingIsLeft(w: World, ms: seq<Moment>)
    requires w.terminating || w.deleted
    ensures ProcessCondemned(w, ms) == Result(w, false)
  {
  }

  /** What deleting a drained pod comes to: it is gone if the API server accepts, and a refusal is an
      error; that the pod is not found is neither. */
  lemma DeleteAnswers(w: World)
    requires w.client && w.cache.Some? && IsDrained(w.cache.value.states) && !w.deleted && !w.terminating
    ensures var r := ProcessCondemned(w, []);
            && (r.world.deleted <==> w.apiAnswer.Accepted?) && (r.err <==> w.apiAnswer.Refused?)
            && r.world.sent == w.sent && r.world.cordoned == w.cordoned
  {
  }

  /** Whether the operation gets to its first read of the Slurm node. */
  predicate ReadsNode(w: World, op: Operation) {
    match op
    case Cordoning => !w.kubeFails && w.kube.Present?
    case Uncordoning => w.kubeFails || !w.kube.Unschedulable()
    case Condemning => !w.deleted && !w.terminating
  }

  /** A read that fails is an error, and nothing is sent, cordoned or deleted. */
  lemma FailedReadFails(w: World, op: Operation, ms: seq<Moment>)
    requires w.client && ReadsNode(w, op) && At(ms, 0).fails
    ensures var r := Perform(w, op, ms);
            r.err && r.world.sent == w.sent && r.world.cordoned == w.cordoned && r.world.deleted == w.deleted
  {
  }

  lemma DrainAnswered(w: World, reason: string, ms: seq<Moment>, i: nat)
    ensures var r := MakeNodeDrain(w, reason, ms, i);
            r.world.sent != w.sent ==> (r.err <==> w.updateAnswer.Refused?)
  {
  }

  lemma UndrainAnswered(w: World, reason: string, ms: seq<Moment>, i: nat)
    ensures var r := MakeNodeUndrain(w, reason, ms, i);
            r.world.sent != w.sent ==> (r.err <==> w.updateAnswer.Refused?)
  {
  }

  /** A request that was sent fails the operation exactly if it was refused. */
  lemma RefusalIsError(w: World, op: Operation, ms: seq<Moment>)
    ensures var r := Perform(w, op, ms);
            r.world.sent != w.sent ==> (r.err <==> w.updateAnswer.Refused?)
  {
    var g := Pass(w, At(ms, 0));
    match op
    case Cordoning =>
      if w.kube.Present? { SwitchAnswered(Pass(g, At(ms, 1)), ms); }
    case Uncordoning => UncordonAnswered(g, ms);
    case Condemning => CordonAnswered(g, PodReason(w.podKey, "was cordoned pending termination"), ms, 1);
  }

  lemma SwitchAnswered(w: World, ms: seq<Moment>)
    requires w.kube.Present?
    ensures var r := SyncCordonSwitch(w, ms);
            r.world.sent != w.sent ==> (r.err <==> w.updateAnswer.Refused?)
  {
    CordonAnswered(w, CordonReason(w), ms, 2);
    DrainAnswered(w, PodReason(w.podKey, "was cordoned"), ms, 2);
    UndrainAnswered(w, PodReason(w.podKey, "was uncordoned"), ms, 2);
  }

  lemma UncordonAnswered(w: World, ms: seq<Moment>)
    ensures var r := MakePodUncordonAndUndrain(w, ms, 1);
            r.world.sent != w.sent ==> (r.err <==> w.updateAnswer.Refused?)
  {
    var c := SetCordon(w, false).world;
    UndrainAnswered(Pass(c, At(ms, 1)), PodReason(w.podKey, "has been uncordoned"), ms, 2);
  }

  lemma CordonAnswered(w: World, message: string, ms: seq<Moment>, i: nat)
    ensures var r := MakePodCordonAndDrain(w, message, ms, i);
            r.world.sent != w.sent ==> (r.err <==> w.updateAnswer.Refused?)
  {
    var c := SetCordon(w, true).world;
    var reason := if message != "" then message else PodReason(w.podKey, "has been cordoned");
    DrainAnswered(Pass(c, At(ms, i)), reason, ms, i + 1);
  }

  /** The annotation comes first: where it cannot be written, nothing is sent. */
  lemma RefusedPatchStops(w: World, message: string, ms: seq<Moment>, i: nat)
    requires !w.apiAnswer.Accepted?
    ensures !w.cordoned ==> MakePodCordonAndDrain(w, message, ms, i) == Result(w, true)
    ensures w.cordoned ==> MakePodUncordonAndUndrain(w, ms, i) == Result(w, true)
  {
  }

  // ---- Whether a condemned pod ever goes ----

  /** A condemned pod that is also on the keep list, as in DaemonSet mode: it is uncordoned
      first and condemned afterwards, unless the uncordon fails. */
  function KeepAndCondemn(w: World, ms: seq<Moment>, ns: seq<Moment>): Result {
    var u := SyncPodUncordon(w, ms);
    if u.err then u else ProcessCondemned(u.world, ns)
  }

  /** Exactly when such a pod is deleted, if writes are accepted and nothing happens meanwhile: its
      Slurm node is gone from the cache, or is drained there and the uncordon was skipped or found
      nothing to undrain. */
  lemma KeptCondemnedDeletedIff(w: World)
    requires !w.deleted && !w.terminating
    requires w.apiAnswer.Accepted? && w.updateAnswer.Accepted?
    ensures KeepAndCondemn(w, [], []).world.deleted <==>
            || !w.client || w.cache.None?
            || (IsDrained(w.cache.value.states)
                && ((!w.kubeFails && w.kube.Unschedulable()) || !IsReasonOurs(w.cache.value) || w.node.None?))
  {
    UncordonCalm(w);
    CondemnCalm(SyncPodUncordon(w, []).world);
  }

  lemma CondemnCalm(w: World)
    requires !w.deleted && !w.terminating && w.apiAnswer.Accepted?
    ensures ProcessCondemned(w, []).world.deleted <==> !w.client || w.cache.None? || IsDrained(w.cache.value.states)
  {
    KeepsDeleted(Pass(w, CALM), PodReason(w.podKey, "was cordoned pending termination"), [], 1);
  }

  lemma KeepsDeleted(w: World, message: string, ms: seq<Moment>, i: nat)
    ensures MakePodCordonAndDrain(w, message, ms, i).world.deleted == w.deleted
  {
    var reason := if message != "" then message else PodReason(w.podKey, "has been cordoned");
    DrainKeepsDeleted(Pass(SetCordon(w, true).world, At(ms, i)), reason, ms, i + 1);
  }

  lemma DrainKeepsDeleted(w: World, reason: string, ms: seq<Moment>, i: nat)
    ensures MakeNodeDrain(w, reason, ms, i).world.deleted == w.deleted
  {
  }

  lemma DrainEffect(w: World, reason: string, ms: seq<Moment>, i: nat)
    ensures var g := Pass(w, At(ms, i));
            var t := MakeNodeDrain(w, reason, ms, i).world;
            t == g || t == Request(Pass(g, At(ms, i + 1)), DrainUpdate(Prefixed(reason))).world
  {
  }

  /** What an undrain does to the world it finds. */
  lemma UndrainEffect(w: World, reason: string, ms: seq<Moment>, i: nat)
    ensures var g := Pass(w, At(ms, i));
            var l := Get(g, At(ms, i));
            MakeNodeUndrain(w, reason, ms, i) ==
            if l.Registered? && IsDraining(l.node.states)
            then Request(Pass(g, At(ms, i + 1)), UndrainUpdate(Prefixed(reason)))
            else Result(g, l.SlurmFailed?)
  {
  }

  /** The uncordon with nothing happening meanwhile leaves the cached node drained exactly when it
      was, and was skipped or found no node to undrain. */
  lemma UncordonCalm(w: World)
    requires w.apiAnswer.Accepted? && w.updateAnswer.Accepted?
    ensures var u := SyncPodUncordon(w, []);
            && !u.err
            && u.world == w.(cordoned := u.world.cordoned, node := u.world.node, cache := u.world.cache,
                             sent := u.world.sent)
            && (u.world.cache.None? <==> w.cache.None?)
            && (w.client && w.cache.Some? ==>
                  IsDrained(u.world.cache.value.states) ==
                  (IsDrained(w.cache.value.states)
                   && ((!w.kubeFails && w.kube.Unschedulable()) || !IsReasonOurs(w.cache.value) || w.node.None?)))
  {
    assert Pass(w, CALM) == w;
    UncordonAndUndrainCalm(w);
  }

  lemma UncordonAndUndrainCalm(w: World)
    requires w.apiAnswer.Accepted? && w.updateAnswer.Accepted?
    ensures var u := MakePodUncordonAndUndrain(w, [], 1);
            && !u.err
            && u.world == w.(cordoned := false, node := u.world.node, cache := u.world.cache, sent := u.world.sent)
            && (u.world.cache.None? <==> w.cache.None?)
            && (w.client && w.cache.Some? ==>
                  IsDrained(u.world.cache.value.states) == (IsDrained(w.cache.value.states) && w.node.None?))
  {
    var c := w.(cordoned := false);
    assert SetCordon(w, false) == Result(c, false) && Pass(c, CALM) == c;
    UndrainCalm(c, PodReason(w.podKey, "has been uncordoned"), 2);
  }

  lemma UndrainCalm(w: World, reason: string, i: nat)
    requires w.updateAnswer.Accepted?
    ensures var u := MakeNodeUndrain(w, reason, [], i);
            && !u.err
            && u.world == w.(node := u.world.node, cache := u.world.cache, sent := u.world.sent)
            && (u.world.cache.None? <==> w.cache.None?)
            && (w.client && w.cache.Some? ==>
                  IsDrained(u.world.cache.value.states) == (IsDrained(w.cache.value.states) && w.node.None?))
  {
    assert Pass(w, CALM) == w;
    UndrainEffect(w, reason, [], i);
  }

  /** Job activity: any Slurm state but DRAIN and UNDRAIN, the reason untouched. */
  ghost predicate SameFlags(a: Option<SlurmNode>, b: Option<SlurmNode>) {
    && a.Some? && b.Some? && a.value.reason == b.value.reason
    && a.value.states * {DRAIN, UNDRAIN} == b.value.states * {DRAIN, UNDRAIN}
  }

  /** The jobs of a node with these flags and this reason, as they pass. */
  function Jobs(n: Option<SlurmNode>, states: set<NodeState>): Option<SlurmNode> {
    if n.None? then n
    else Some(n.value.(states := (states - {DRAIN, UNDRAIN}) + n.value.states * {DRAIN, UNDRAIN}))
  }

  /** One reconcile of DaemonSet mode for a condemned pod: job activity before its refresh, what
      passes between the reads of its operations, and whether the rolling update at its end gets
      past the expectations and picks the pod. */
  datatype Round = Round(
    before: set<NodeState>, cordoning: seq<Moment>, uncordoning: seq<Moment>, condemning: seq<Moment>,
    picked: bool, updating: seq<Moment>)

  function RoundStart(w: World, r: Round): World { Refreshed(w.(node := Jobs(w.node, r.before))) }

  function DaemonReconcile(w: World, r: Round): World {
    var c := SyncCordon(RoundStart(w, r), r.cordoning);
    if c.err then c.world else
      var u := SyncPodUncordon(c.world, r.uncordoning);
      if u.err then u.world else
        var k := ProcessCondemned(u.world, r.condemning);
        if k.err || !r.picked then k.world else ProcessCondemned(k.world, r.updating).world
  }

  /** Between the reads there is job activity only; the cache may follow or not, reads may fail. */
  ghost predicate JobsOnly(ms: seq<Moment>, w: World) {
    forall m :: m in ms && m.change.Becomes? ==> SameFlags(w.node, m.change.node)
  }

  ghost predicate RoundOfJobs(w: World, r: Round) {
    var start := RoundStart(w, r);
    var c := SyncCordon(start, r.cordoning);
    var u := SyncPodUncordon(c.world, r.uncordoning);
    JobsOnly(r.cordoning, start) && JobsOnly(r.uncordoning, c.world) && JobsOnly(r.condemning, u.world)
  }

  ghost predicate RoundsOfJobs(w: World, rounds: seq<Round>)
    decreases |rounds|
  {
    rounds == [] || (RoundOfJobs(w, rounds[0]) && RoundsOfJobs(DaemonReconcile(w, rounds[0]), rounds[1..]))
  }

  function DaemonRounds(w: World, rounds: seq<Round>): World
    decreases |rounds|
  {
    if rounds == [] then w else DaemonRounds(DaemonReconcile(w, rounds[0]), rounds[1..])
  }

  ghost predicate Held(w: World) {
    && !w.deleted && !w.terminating && w.client
    && w.node.Some? && IsReasonOurs(w.node.value)
    && !w.kube.Unschedulable()
    && w.apiAnswer.Accepted? && w.updateAnswer.Accepted?
  }

  /** The cached copy may be behind on jobs, not on flags and reason. */
  ghost predicate HeldAndSeen(w: World) { Held(w) && SameFlags(w.node, w.cache) }

  lemma JobsKeepFlags(n: SlurmNode, states: set<NodeState>)
    ensures SameFlags(Some(n), Jobs(Some(n), states))
  {
  }

  lemma FlagsDecideDraining(a: Option<SlurmNode>, b: Option<SlurmNode>)
    requires SameFlags(a, b)
    ensures DRAIN in a.value.states <==> DRAIN in b.value.states
    ensures IsDraining(a.value.states) == IsDraining(b.value.states)
  {
    assert forall f :: f in {DRAIN, UNDRAIN} ==> (f in a.value.states <==> f in a.value.states * {DRAIN, UNDRAIN});
    assert forall f :: f in {DRAIN, UNDRAIN} ==> (f in b.value.states <==> f in b.value.states * {DRAIN, UNDRAIN});
  }

  /** Jobs pass, and flags and reason are what they were. */
  ghost predicate SameButJobs(w: World, t: World) {
    t == w.(node := t.node, cache := t.cache) && SameFlags(w.node, t.node) && SameFlags(w.node, t.cache)
  }

  lemma PassOfJobs(w: World, t: World, ms: seq<Moment>, i: nat)
    requires HeldAndSeen(w) && JobsOnly(ms, w) && SameButJobs(w, t)
    ensures SameButJobs(w, Pass(t, At(ms, i)))
  {
    assert i < |ms| ==> ms[i] in ms;
  }

  /** Our own request leaves the cache up to date and the reason ours. */
  lemma RequestHeld(w: World, update: Update)
    requires Held(w) && HasPrefix(update.reason, NODE_REASON_PREFIX)
    ensures HeldAndSeen(Request(w, update).world)
    ensures IsDraining(Request(w, update).world.node.value.states) <==> update.DrainUpdate?
  {
  }

  lemma PrefixedIsOurs(reason: string)
    requires reason != ""
    ensures HasPrefix(Prefixed(reason), NODE_REASON_PREFIX)
  {
  }

  lemma DrainHeld(w: World, t: World, reason: string, ms: seq<Moment>, i: nat)
    requires HeldAndSeen(w) && JobsOnly(ms, w) && SameButJobs(w, t) && reason != ""
    ensures HeldAndSeen(MakeNodeDrain(t, reason, ms, i).world)
  {
    PassOfJobs(w, t, ms, i);
    var g := Pass(t, At(ms, i));
    PassOfJobs(w, g, ms, i + 1);
    DrainEffect(t, reason, ms, i);
    PrefixedIsOurs(reason);
    RequestHeld(Pass(g, At(ms, i + 1)), DrainUpdate(Prefixed(reason)));
  }

  lemma UndrainHeld(w: World, t: World, reason: string, ms: seq<Moment>, i: nat)
    requires HeldAndSeen(w) && JobsOnly(ms, w) && SameButJobs(w, t) && reason != ""
    ensures var r := MakeNodeUndrain(t, reason, ms, i);
            HeldAndSeen(r.world) && (!r.err ==> !IsDraining(r.world.node.value.states))
  {
    PassOfJobs(w, t, ms, i);
    var g := Pass(t, At(ms, i));
    PassOfJobs(w, g, ms, i + 1);
    UndrainEffect(t, reason, ms, i);
    PrefixedIsOurs(reason);
    RequestHeld(Pass(g, At(ms, i + 1)), UndrainUpdate(Prefixed(reason)));
    FlagsDecideDraining(w.node, g.node);
    FlagsDecideDraining(w.node, g.cache);
  }

  lemma HeldCordon(w: World, ms: seq<Moment>)
    requires HeldAndSeen(w) && JobsOnly(ms, w)
    ensures HeldAndSeen(SyncCordon(w, ms).world)
  {
    PassOfJobs(w, w, ms, 0);
    var g1 := Pass(w, At(ms, 0));
    PassOfJobs(w, g1, ms, 1);
    var g2 := Pass(g1, At(ms, 1));
    DrainHeld(w, g2, PodReason(w.podKey, "was cordoned"), ms, 2);
    UndrainHeld(w, g2, PodReason(w.podKey, "was uncordoned"), ms, 2);
  }

  lemma HeldUncordon(w: World, ms: seq<Moment>)
    requires HeldAndSeen(w) && JobsOnly(ms, w)
    ensures var u := SyncPodUncordon(w, ms);
            HeldAndSeen(u.world) && (!u.err ==> !IsDraining(u.world.node.value.states))
  {
    PassOfJobs(w, w, ms, 0);
    var g1 := Pass(w, At(ms, 0));
    var v := w.(cordoned := false);
    var c := SetCordon(g1, false).world;
    PassOfJobs(v, c, ms, 1);
    var g2 := Pass(c, At(ms, 1));
    FlagsDecideDraining(w.node, g2.cache);
    FlagsDecideDraining(w.node, g2.node);
    UndrainHeld(v, g2, PodReason(w.podKey, "has been uncordoned"), ms, 2);
  }

  lemma HeldCordonAndDrain(w: World, t: World, message: string, ms: seq<Moment>, i: nat)
    requires HeldAndSeen(w) && JobsOnly(ms, w) && SameButJobs(w, t) && message != ""
    ensures HeldAndSeen(MakePodCordonAndDrain(t, message, ms, i).world)
  {
    var v := w.(cordoned := true);
    var c := SetCordon(t, true).world;
    PassOfJobs(v, c, ms, i);
    DrainHeld(v, Pass(c, At(ms, i)), message, ms, i + 1);
  }

  lemma HeldCondemn(w: World, ms: seq<Moment>)
    requires HeldAndSeen(w) && !IsDraining(w.node.value.states) && JobsOnly(ms, w)
    ensures HeldAndSeen(ProcessCondemned(w, ms).world)
  {
    PassOfJobs(w, w, ms, 0);
    var g := Pass(w, At(ms, 0));
    FlagsDecideDraining(w.node, g.cache);
    HeldCordonAndDrain(w, g, PodReason(w.podKey, "was cordoned pending termination"), ms, 1);
  }

  lemma HeldReconcile(w: World, r: Round)
    requires Held(w) && RoundOfJobs(w, r) && !r.picked
    ensures Held(DaemonReconcile(w, r))
  {
    var start := RoundStart(w, r);
    JobsKeepFlags(w.node.value, r.before);
    HeldCordon(start, r.cordoning);
    var c := SyncCordon(start, r.cordoning);
    HeldUncordon(c.world, r.uncordoning);
    var u := SyncPodUncordon(c.world, r.uncordoning);
    if !u.err { HeldCondemn(u.world, r.condemning); }
  }

  /** In DaemonSet mode uncordon and condemn undo each other: a condemned pod whose Slurm node
      is registered with the operator's reason, on a Kubernetes node that is not unschedulable, is
      not deleted in any number of reconciles that do not pick it for a rolling update, whatever
      its jobs do and whichever reads fail. */
  lemma {:induction false} DaemonCondemnedStays(w: World, rounds: seq<Round>)
    requires Held(w) && RoundsOfJobs(w, rounds) && forall r :: r in rounds ==> !r.picked
    ensures Held(DaemonRounds(w, rounds))
    decreases |rounds|
  {
    if rounds != [] {
      HeldReconcile(w, rounds[0]);
      DaemonCondemnedStays(DaemonReconcile(w, rounds[0]), rounds[1..]);
    }
  }

  // ---- Exactly when such a pod goes ----

  /** Nothing happens between the reads of a round. */
  predicate CalmRound(r: Round) {
    r.cordoning == [] && r.uncordoning == [] && r.condemning == [] && r.updating == []
  }

  /** The update picks the pod while its node has no work. */
  predicate Takes(r: Round) { r.picked && !IsBusy(r.before) }

  /** Held, with the Kubernetes node looked up and no undrain pending. */
  ghost predicate HeldCalmly(w: World) {
    Held(w) && !w.kubeFails && UNDRAIN !in w.node.value.states
  }

  /** And with the cache up to date. */
  ghost predicate HeldInSync(w: World) { HeldCalmly(w) && w.cache == w.node }

  ghost predicate Busy(w: World) { w.node.Some? && IsBusy(w.node.value.states) }

  lemma RequestInSync(w: World, update: Update)
    requires HeldInSync(w) && HasPrefix(update.reason, NODE_REASON_PREFIX)
    ensures var r := Request(w, update);
            && !r.err && HeldInSync(r.world) && Busy(r.world) == Busy(w)
            && (DRAIN in r.world.node.value.states <==> update.DrainUpdate?)
  {
  }

  lemma DrainInSync(w: World, reason: string, i: nat)
    requires HeldInSync(w) && reason != ""
    ensures var r := MakeNodeDrain(w, reason, [], i);
            && !r.err && HeldInSync(r.world) && Busy(r.world) == Busy(w) && DRAIN in r.world.node.value.states
  {
    assert Pass(w, CALM) == w;
    PrefixedIsOurs(reason);
    RequestInSync(w, DrainUpdate(Prefixed(reason)));
  }

  lemma UndrainInSync(w: World, reason: string, i: nat)
    requires HeldInSync(w) && reason != ""
    ensures var r := MakeNodeUndrain(w, reason, [], i);
            && !r.err && HeldInSync(r.world) && Busy(r.world) == Busy(w) && DRAIN !in r.world.node.value.states
  {
    assert Pass(w, CALM) == w;
    PrefixedIsOurs(reason);
    RequestInSync(w, UndrainUpdate(Prefixed(reason)));
  }

  lemma CordonInSync(w: World)
    requires HeldInSync(w)
    ensures var r := SyncCordon(w, []); !r.err && HeldInSync(r.world) && Busy(r.world) == Busy(w)
  {
    assert Pass(w, CALM) == w;
    DrainInSync(w, PodReason(w.podKey, "was cordoned"), 2);
    UndrainInSync(w, PodReason(w.podKey, "was uncordoned"), 2);
  }

  lemma UncordonInSync(w: World)
    requires HeldInSync(w)
    ensures var r := SyncPodUncordon(w, []);
            && !r.err && HeldInSync(r.world) && Busy(r.world) == Busy(w) && DRAIN !in r.world.node.value.states
  {
    var v := w.(cordoned := false);
    assert Pass(w, CALM) == w && Pass(v, CALM) == v && SetCordon(w, false) == Result(v, false);
    UndrainInSync(v, PodReason(w.podKey, "has been uncordoned"), 2);
  }

  /** The first condemnation drains, the second deletes an idle pod and leaves a busy one. */
  lemma CondemnInSync(w: World)
    requires HeldInSync(w)
    ensures var r := ProcessCondemned(w, []);
            && !r.err
            && (r.world.deleted <==> DRAIN in w.node.value.states && !Busy(w))
            && (!r.world.deleted ==>
                  HeldInSync(r.world) && Busy(r.world) == Busy(w) && DRAIN in r.world.node.value.states)
  {
    var v := w.(cordoned := true);
    assert Pass(w, CALM) == w && Pass(v, CALM) == v && SetCordon(w, true) == Result(v, false);
    DrainInSync(v, PodReason(w.podKey, "was cordoned pending termination"), 2);
  }

  lemma CalmReconcile(w: World, r: Round)
    requires HeldCalmly(w) && CalmRound(r)
    ensures var t := DaemonReconcile(w, r);
            && (t.deleted <==> Takes(r))
            && (!t.deleted ==> HeldCalmly(t))
  {
    var start := RoundStart(w, r);
    assert HeldInSync(start) && Busy(start) == IsBusy(r.before);
    CordonInSync(start);
    var c := SyncCordon(start, []).world;
    UncordonInSync(c);
    var u := SyncPodUncordon(c, []).world;
    CondemnInSync(u);
    CondemnInSync(ProcessCondemned(u, []).world);
  }

  lemma CordonKeepsDeleted(w: World, ms: seq<Moment>)
    ensures SyncCordon(w, ms).world.deleted == w.deleted
  {
    if w.kube.Present? { SwitchKeepsDeleted(Pass(Pass(w, At(ms, 0)), At(ms, 1)), ms); }
  }

  lemma SwitchKeepsDeleted(w: World, ms: seq<Moment>)
    requires w.kube.Present?
    ensures SyncCordonSwitch(w, ms).world.deleted == w.deleted
  {
    KeepsDeleted(w, CordonReason(w), ms, 2);
    DrainKeepsDeleted(w, PodReason(w.podKey, "was cordoned"), ms, 2);
    UndrainKeepsDeleted(w, PodReason(w.podKey, "was uncordoned"), ms, 2);
  }

  lemma UndrainKeepsDeleted(w: World, reason: string, ms: seq<Moment>, i: nat)
    ensures MakeNodeUndrain(w, reason, ms, i).world.deleted == w.deleted
  {
  }

  lemma UncordonKeepsDeleted(w: World, ms: seq<Moment>)
    ensures SyncPodUncordon(w, ms).world.deleted == w.deleted
  {
    var c := SetCordon(Pass(w, At(ms, 0)), false).world;
    UndrainKeepsDeleted(Pass(c, At(ms, 1)), PodReason(w.podKey, "has been uncordoned"), ms, 2);
  }

  lemma {:induction false} GoneForever(w: World, rounds: seq<Round>)
    requires w.deleted
    ensures DaemonRounds(w, rounds).deleted
    decreases |rounds|
  {
    if rounds != [] {
      var r := rounds[0];
      CordonKeepsDeleted(RoundStart(w, r), r.cordoning);
      UncordonKeepsDeleted(SyncCordon(RoundStart(w, r), r.cordoning).world, r.uncordoning);
      GoneForever(DaemonReconcile(w, r), rounds[1..]);
    }
  }

  /** Exactly when a condemned daemon pod goes, if nothing happens between the reads of a reconcile:
      when some rolling update picks it while its node has no work, because that condemns it a
      second time with no uncordon in between. */
  lemma {:induction false} DaemonCondemnedGoesIff(w: World, rounds: seq<Round>)
    requires HeldCalmly(w) && forall r :: r in rounds ==> CalmRound(r)
    ensures DaemonRounds(w, rounds).deleted <==> exists r :: r in rounds && Takes(r)
    decreases |rounds|
  {
    if rounds != [] {
      var t := DaemonReconcile(w, rounds[0]);
      CalmReconcile(w, rounds[0]);
      FirstOrLater(rounds);
      if t.deleted { GoneForever(t, rounds[1..]); } else { DaemonCondemnedGoesIff(t, rounds[1..]); }
    }
  }

  lemma FirstOrLater(rounds: seq<Round>)
    requires rounds != []
    ensures (exists r :: r in rounds && Takes(r)) <==> Takes(rounds[0]) || exists r :: r in rounds[1..] && Takes(r)
  {
    assert rounds == [rounds[0]] + rounds[1..];
  }

  /** In StatefulSet mode the condemned pod is not on the keep list, and the second reconcile
      after its work has ended deletes it. */
  lemma StatefulCondemnedGoes(w: World)
    requires !w.deleted && !w.terminating
    requires w.apiAnswer.Accepted? && w.updateAnswer.Accepted? && w.kube.Present?
    requires !w.kubeFails && !w.kubeFailsAgain && w.client && w.node.Some?
    requires !IsBusy(w.node.value.states) && UNDRAIN !in w.node.value.states
    ensures var first := ProcessCondemned(Refreshed(w), []).world;
            ProcessCondemned(SyncCordon(Refreshed(first), []).world, []).world.deleted
  {
    var first := ProcessCondemned(Refreshed(w), []).world;
    FirstDrains(Refreshed(w));
    if !first.deleted { CordonKeepsDrained(Refreshed(first)); }
  }

  lemma FirstDrains(w: World)
    requires !w.deleted && !w.terminating && w.client && w.node.Some? && w.cache == w.node
    requires w.apiAnswer.Accepted? && w.updateAnswer.Accepted?
    requires !IsBusy(w.node.value.states) && UNDRAIN !in w.node.value.states
    ensures var t := ProcessCondemned(w, []).world;
            t.deleted || (t == w.(cordoned := true, node := t.node, cache := t.cache, sent := t.sent)
                          && t.node.Some? && IsDrained(t.node.value.states))
  {
  }

  lemma CordonKeepsDrained(w: World)
    requires w.client && w.node.Some? && w.cache == w.node && IsDrained(w.node.value.states) && w.cordoned
    requires !w.kubeFails && !w.kubeFailsAgain && w.kube.Present? && w.apiAnswer.Accepted? && w.updateAnswer.Accepted?
    requires !w.deleted && !w.terminating
    ensures var t := SyncCordon(w, []).world;
            ProcessCondemned(t, []).world.deleted
  {
    var t := SyncCordon(w, []).world;
    assert t.client && t.cache.Some? && IsDrained(t.cache.value.states) && t.apiAnswer.Accepted?;
  }
}
