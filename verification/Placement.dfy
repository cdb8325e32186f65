/** DaemonSet-mode placement: the decision for one node, and where repeating it leads. */
module Placement {
  import opened ActivePods
  import opened Sets

  /** A pod as listed: its target node may be missing. */
  datatype ListedPod = ListedPod(pod: Pod, hasTarget: bool, target: string)

  /** What NodeShouldRunDaemonPod says of a node. */
  datatype Kind = ShouldRun | ContinueOnly | MustNotRun

  datatype Effect = NoSchedule | PreferNoSchedule | NoExecute

  /** A taint of a node, and whether the pod the NodeSet would create there tolerates it. */
  datatype Taint = Taint(effect: Effect, tolerated: bool)

  /** How that pod fits a node: by name, by affinity, and the node's taints. */
  datatype Fit = Fit(name: bool, affinity: bool, taints: seq<Taint>)

  /** FindMatchingUntoleratedTaint, for the effects given. */
  predicate HasUntolerated(taints: seq<Taint>, effects: set<Effect>) {
    exists t :: t in taints && !t.tolerated && t.effect in effects
  }

  function NodeKind(f: Fit): Kind {
    if !f.name || !f.affinity then MustNotRun
    else if HasUntolerated(f.taints, {NoExecute, NoSchedule}) then
      (if HasUntolerated(f.taints, {NoExecute}) then MustNotRun else ContinueOnly)
    else ShouldRun
  }

  predicate IsTerminal(p: Pod) { p.phase.Succeeded? || p.phase.Failed? }

  /** Pods on their way out that have already stopped count as gone. */
  predicate IsGone(p: Pod) { IsTerminal(p) && p.terminating }

  function OnNode(pods: seq<ListedPod>, node: string): seq<Pod> {
    if pods == [] then [] else
      var last := pods[|pods| - 1];
      OnNode(pods[..|pods| - 1], node) +
      (if last.hasTarget && last.target == node && !IsGone(last.pod) then [last.pod] else [])
  }

  /** getNodesToDaemonPods: a node is present exactly when a pod that is not gone targets it. */
  method GroupByNode(pods: seq<ListedPod>) returns (groups: map<string, seq<Pod>>)
    ensures forall n :: n in groups ==> groups[n] == OnNode(pods, n) && groups[n] != []
    ensures forall n :: n !in groups ==> OnNode(pods, n) == []
  {
    groups := map[];
    for i := 0 to |pods|
      invariant forall n :: n in groups ==> groups[n] == OnNode(pods[..i], n) && groups[n] != []
      invariant forall n :: n !in groups ==> OnNode(pods[..i], n) == []
    {
      assert pods[..i + 1][..i] == pods[..i];
      var p := pods[i];
      if IsGone(p.pod) || !p.hasTarget { continue; }
      var here := if p.target in groups then groups[p.target] else [];
      groups := groups[p.target := here + [p.pod]];
    }
    assert pods[..|pods|] == pods;
  }

  // ---- The decision ----

  predicate IsRunning(p: Pod) { !p.terminating && !IsTerminal(p) }

  ghost function RunningPods(here: set<Pod>): set<Pod> { set p | p in here && IsRunning(p) }
  ghost function FailedPods(here: set<Pod>): set<Pod> { set p | p in here && !p.terminating && p.phase.Failed? }
  ghost function SucceededPods(here: set<Pod>): set<Pod> { set p | p in here && !p.terminating && p.phase.Succeeded? }

  /** What the list order and the sort settle: the failed pod met first and the running pod kept. */
  datatype Choice = Choice(failed: Pod, keep: Pod)

  ghost predicate Possible(here: set<Pod>, c: Choice) {
    && (FailedPods(here) != {} ==> c.failed in FailedPods(here))
    && (RunningPods(here) != {} ==> c.keep in RunningPods(here))
  }

  ghost predicate Creates(kind: Kind, here: set<Pod>) {
    kind == ShouldRun && here == {}
  }

  /** Deleting one failed pod puts the node in backoff, so the others wait for a later round. */
  ghost function Deletes(kind: Kind, here: set<Pod>, c: Choice, inBackoff: bool): set<Pod> {
    if kind == MustNotRun then set p | p in here && !p.terminating
    else
      (if FailedPods(here) != {} && !inBackoff then {c.failed} else {})
      + SucceededPods(here)
      + (if |RunningPods(here)| > 1 then RunningPods(here) - {c.keep} else {})
  }

  ghost predicate Distinct(s: seq<Pod>) {
    forall i, j :: 0 <= i < j < |s| ==> s[i] != s[j]
  }

  function RunningOf(s: seq<Pod>): (r: seq<Pod>)
    ensures forall p :: p in r <==> p in s && IsRunning(p)
  {
    if s == [] then [] else
      RunningOf(s[..|s| - 1]) + (if IsRunning(s[|s| - 1]) then [s[|s| - 1]] else [])
  }

  lemma OneMoreRunning(s: seq<Pod>, p: Pod)
    requires p !in s
    ensures |RunningPods(Elems(s + [p]))| == |RunningPods(Elems(s))| + (if IsRunning(p) then 1 else 0)
  {
    assert p !in RunningPods(Elems(s));
    assert RunningPods(Elems(s + [p])) == RunningPods(Elems(s)) + (if IsRunning(p) then {p} else {});
  }

  lemma {:induction false} RunningOfDistinct(s: seq<Pod>)
    requires Distinct(s)
    ensures |RunningOf(s)| == |RunningPods(Elems(s))|
  {
    if s == [] {
      assert RunningPods(Elems(s)) == {};
    } else {
      var n := |s| - 1;
      RunningOfDistinct(s[..n]);
      assert s == s[..n] + [s[n]] && s[n] !in s[..n];
      OneMoreRunning(s[..n], s[n]);
    }
  }

  /** The switch over the pods of a node that may keep running. */
  method TerminalPods(here: seq<Pod>, inBackoff: bool)
    returns (podsToDelete: seq<Pod>, running: seq<Pod>, ghost failed: Pod)
    requires here != []
    ensures running == RunningOf(here)
    ensures FailedPods(Elems(here)) != {} ==> failed in FailedPods(Elems(here))
    ensures Elems(podsToDelete) == TerminalDeletes(Elems(here), failed, inBackoff)
  {
    podsToDelete, running, failed := [], [], here[0];
    var backoff := inBackoff;
    ghost var failures, successes := {}, {};
    for i := 0 to |here|
      invariant running == RunningOf(here[..i])
      invariant IsSplit(here[..i], failures, successes)
      invariant backoff <==> inBackoff || failures != {}
      invariant failures != {} ==> failed in failures
      invariant forall p :: p in podsToDelete <==> p in successes || (failures != {} && !inBackoff && p == failed)
    {
      var pod := here[i];
      assert here[..i + 1] == here[..i] + [pod] && here[..i + 1][..i] == here[..i];
      SplitStep(here[..i], pod, failures, successes);
      if pod.terminating {
      } else if pod.phase.Failed? {
        if failures == {} { failed := pod; }
        failures := failures + {pod};
        if !backoff {
          backoff := true;
          podsToDelete := podsToDelete + [pod];
        }
      } else if pod.phase.Succeeded? {
        successes := successes + {pod};
        podsToDelete := podsToDelete + [pod];
      } else {
        running := running + [pod];
      }
    }
    assert here[..|here|] == here;
  }

  ghost predicate IsSplit(s: seq<Pod>, failures: set<Pod>, successes: set<Pod>) {
    failures == FailedPods(Elems(s)) && successes == SucceededPods(Elems(s))
  }

  lemma SplitStep(s: seq<Pod>, p: Pod, failures: set<Pod>, successes: set<Pod>)
    requires IsSplit(s, failures, successes)
    ensures IsSplit(s + [p],
                    failures + (if !p.terminating && p.phase.Failed? then {p} else {}),
                    successes + (if !p.terminating && p.phase.Succeeded? then {p} else {}))
  {
    OneMore(s, p);
  }

  lemma OneMore(s: seq<Pod>, p: Pod)
    ensures Elems(s + [p]) == Elems(s) + {p}
    ensures FailedPods(Elems(s + [p])) == FailedPods(Elems(s)) + (if !p.terminating && p.phase.Failed? then {p} else {})
    ensures SucceededPods(Elems(s + [p])) ==
            SucceededPods(Elems(s)) + (if !p.terminating && p.phase.Succeeded? then {p} else {})
  {
  }

  /** The pods of a node the NodeSet must leave. */
  method LeavingPods(here: seq<Pod>) returns (podsToDelete: seq<Pod>)
    ensures Elems(podsToDelete) == set p | p in Elems(here) && !p.terminating
  {
    podsToDelete := [];
    for i := 0 to |here|
      invariant Elems(podsToDelete) == set p | p in Elems(here[..i]) && !p.terminating
    {
      assert here[..i + 1] == here[..i] + [here[i]];
      OneMore(here[..i], here[i]);
      if !here[i].terminating {
        OneMore(podsToDelete, here[i]);
        podsToDelete := podsToDelete + [here[i]];
      }
    }
    assert here[..|here|] == here;
  }

  /** podsShouldBeOnNode. `order` is what the sort makes of a list of running pods. */
  method PodsShouldBeOnNode(fit: Fit, here: seq<Pod>, inBackoff: bool, order: seq<Pod>)
    returns (create: bool, podsToDelete: seq<Pod>, ghost choice: Choice)
    requires Distinct(here) && IsSortOf(RunningOf(here), order)
    ensures here != [] ==> Possible(Elems(here), choice)
    ensures create <==> Creates(NodeKind(fit), Elems(here))
    ensures Elems(podsToDelete) == Deletes(NodeKind(fit), Elems(here), choice, inBackoff)
    ensures !(create && podsToDelete != [])
    ensures create <==> here == [] && MaySchedule(fit)
    ensures NodeKind(fit) != MustNotRun && order != [] ==> KeptIsFirst(here, order, choice.keep, podsToDelete)
  {
    var kind := NodeKind(fit);
    if here == [] { CreatesIff(fit, Elems(here)); }
    create, podsToDelete := false, [];
    assert here != [] ==> here[0] in Elems(here);
    if here == [] {
      create := kind == ShouldRun;
      var any := Pod(0, "", "", Pending, false, 0, 0, 0, false, 0, 0, false, "", false);
      choice := Choice(any, any);
    } else if kind == MustNotRun {
      podsToDelete := LeavingPods(here);
      choice := SomeChoice(Elems(here), here[0]);
    } else {
      podsToDelete, choice := ContinuingPods(here, inBackoff, order);
    }
  }

  /** The case of a node with pods that may keep one. */
  method ContinuingPods(here: seq<Pod>, inBackoff: bool, order: seq<Pod>)
    returns (podsToDelete: seq<Pod>, ghost choice: Choice)
    requires here != [] && Distinct(here) && IsSortOf(RunningOf(here), order)
    ensures Possible(Elems(here), choice)
    ensures Elems(podsToDelete) == Deletes(ContinueOnly, Elems(here), choice, inBackoff)
    ensures order != [] ==> KeptIsFirst(here, order, choice.keep, podsToDelete)
  {
    ghost var failed;
    var running;
    podsToDelete, running, failed := TerminalPods(here, inBackoff);
    OrderIsRunning(here, order);
    choice := Choice(failed, if order == [] then here[0] else order[0]);
    ContinuingDeletes(Elems(here), order, podsToDelete, choice, inBackoff);
    if |running| > 1 {
      podsToDelete := podsToDelete + order[1..];
    }
    if order != [] { KeptFacts(here, order, choice, inBackoff, podsToDelete); }
  }

  /** The running pod that stays is the first in deletion order: where Less is strict no other is
      preferred for deletion over it, and of pods alike but for their age it is the youngest. */
  ghost predicate KeptIsFirst(here: seq<Pod>, order: seq<Pod>, keep: Pod, podsToDelete: seq<Pod>) {
    && keep in RunningOf(here) && keep !in podsToDelete
    && (StrictOn(RunningOf(here)) ==> forall p :: p in RunningOf(here) ==> p == keep || !Less(p, keep))
    && (AllAlike(RunningOf(here)) ==> forall p :: p in RunningOf(here) ==> p.created <= keep.created)
  }

  lemma KeptFacts(here: seq<Pod>, order: seq<Pod>, c: Choice, inBackoff: bool, podsToDelete: seq<Pod>)
    requires IsSortOf(RunningOf(here), order) && order != [] && c.keep == order[0] && Possible(Elems(here), c)
    requires Elems(podsToDelete) == Deletes(ContinueOnly, Elems(here), c, inBackoff)
    ensures KeptIsFirst(here, order, c.keep, podsToDelete)
  {
    assert order[0] in multiset(order);
    NotDeleted(Elems(here), c, inBackoff);
    assert c.keep in podsToDelete ==> c.keep in Elems(podsToDelete);
    forall p | p in RunningOf(here)
      ensures StrictOn(RunningOf(here)) ==> p == c.keep || !Less(p, c.keep)
      ensures AllAlike(RunningOf(here)) ==> p.created <= c.keep.created
    {
      assert p in multiset(RunningOf(here));
      var j := PlaceOf(order, p);
      if AllAlike(RunningOf(here)) { KeepsTheYoungest(RunningOf(here), order, p); }
    }
  }

  lemma NotDeleted(here: set<Pod>, c: Choice, inBackoff: bool)
    requires Possible(here, c) && c.keep in RunningPods(here)
    ensures c.keep !in Deletes(ContinueOnly, here, c, inBackoff)
  {
  }

  lemma ContinuingDeletes(here: set<Pod>, order: seq<Pod>, terminal: seq<Pod>, c: Choice, inBackoff: bool)
    requires |order| == |RunningPods(here)| && (forall p :: p in order <==> p in RunningPods(here))
    requires order != [] ==> c.keep == order[0]
    requires Elems(terminal) == TerminalDeletes(here, c.failed, inBackoff)
    ensures Elems(if |order| > 1 then terminal + order[1..] else terminal) == Deletes(ContinueOnly, here, c, inBackoff)
    ensures RunningPods(here) != {} ==> c.keep in RunningPods(here)
  {
    DeletesSplit(here, c, inBackoff);
    if |order| > 1 {
      SortedKeepsOne(order, RunningPods(here));
      ElemsConcat(terminal, order[1..]);
    }
  }

  ghost function TerminalDeletes(here: set<Pod>, failed: Pod, inBackoff: bool): set<Pod> {
    (if FailedPods(here) != {} && !inBackoff then {failed} else {}) + SucceededPods(here)
  }

  lemma DeletesSplit(here: set<Pod>, c: Choice, inBackoff: bool)
    ensures Deletes(ContinueOnly, here, c, inBackoff) == TerminalDeletes(here, c.failed, inBackoff)
            + (if |RunningPods(here)| > 1 then RunningPods(here) - {c.keep} else {})
  {
  }

  lemma ElemsConcat(a: seq<Pod>, b: seq<Pod>)
    ensures Elems(a + b) == Elems(a) + Elems(b)
  {
  }

  lemma OrderIsRunning(here: seq<Pod>, order: seq<Pod>)
    requires Distinct(here) && multiset(order) == multiset(RunningOf(here))
    ensures |order| == |RunningOf(here)| == |RunningPods(Elems(here))|
    ensures forall p :: p in order <==> p in RunningPods(Elems(here))
  {
    assert |multiset(order)| == |order| && |multiset(RunningOf(here))| == |RunningOf(here)|;
    SameMembers(order, RunningOf(here));
    RunningOfDistinct(here);
  }

  ghost function SomeChoice(here: set<Pod>, p: Pod): (c: Choice)
    ensures Possible(here, c)
  {
    Choice(if FailedPods(here) != {} then (var x :| x in FailedPods(here); x) else p,
           if RunningPods(here) != {} then (var x :| x in RunningPods(here); x) else p)
  }

  lemma SameMembers(a: seq<Pod>, b: seq<Pod>)
    requires multiset(a) == multiset(b)
    ensures forall p :: p in a <==> p in b
  {
    forall p ensures p in a <==> p in b {
      assert p in a <==> p in multiset(a);
      assert p in b <==> p in multiset(b);
    }
  }

  /** A list that runs through a set of its own length has no repeats. */
  lemma SortedKeepsOne(order: seq<Pod>, running: set<Pod>)
    requires order != [] && |order| == |running|
    requires forall p :: p in order <==> p in running
    ensures Elems(order[1..]) == running - {order[0]}
  {
    assert Elems(order) == running;
    assert order == [order[0]] + order[1..];
    assert Elems(order) == {order[0]} + Elems(order[1..]);
    ElemsSize(order[1..]);
  }

  /** Pods the deletion order tells apart by age only. */
  predicate AlikeButAge(p: Pod, q: Pod) {
    !p.cordoned && p.created != 0 && p == q.(uid := p.uid, name := p.name, created := p.created)
  }

  ghost predicate AllAlike(pods: seq<Pod>) {
    forall i, j :: 0 <= i < |pods| && 0 <= j < |pods| ==> AlikeButAge(pods[i], pods[j])
  }

  /** The running pod kept among duplicates is the first in deletion order: of pods alike but for
      their age, the youngest stays and the older ones go. */
  lemma KeepsTheYoungest(pods: seq<Pod>, sorted: seq<Pod>, p: Pod)
    requires IsSortOf(pods, sorted) && p in pods && sorted != []
    requires AllAlike(pods)
    ensures p.created <= sorted[0].created
  {
    assert StrictOn(pods);
    assert p in multiset(sorted) && sorted[0] in multiset(pods);
    var j :| 0 <= j < |sorted| && sorted[j] == p;
    var a :| 0 <= a < |pods| && pods[a] == p;
    var b :| 0 <= b < |pods| && pods[b] == sorted[0];
    assert AlikeButAge(pods[a], pods[b]) && AlikeButAge(pods[b], pods[a]);
    assert j == 0 || !Less(p, sorted[0]);
  }

  // ---- The decision in terms of the node's taints ----

  /** No taint keeps the pod from being scheduled. */
  predicate MaySchedule(f: Fit) {
    f.name && f.affinity && forall t :: t in f.taints && !t.tolerated ==> t.effect == PreferNoSchedule
  }

  /** No taint evicts it. */
  predicate MayStay(f: Fit) {
    f.name && f.affinity && forall t :: t in f.taints && !t.tolerated ==> t.effect != NoExecute
  }

  /** A pod is created exactly on an empty node that would schedule it. */
  lemma CreatesIff(f: Fit, here: set<Pod>)
    ensures Creates(NodeKind(f), here) <==> MaySchedule(f) && here == {}
  {
    forall t: Taint ensures t.effect in {NoExecute, NoSchedule} <==> t.effect != PreferNoSchedule {
    }
    if HasUntolerated(f.taints, {NoExecute}) {
      var t :| t in f.taints && !t.tolerated && t.effect in {NoExecute};
      assert t.effect in {NoExecute, NoSchedule};
    }
  }

  lemma MustGoIff(f: Fit)
    ensures NodeKind(f) == MustNotRun <==> !MayStay(f)
  {
    if HasUntolerated(f.taints, {NoExecute}) {
      var t :| t in f.taints && !t.tolerated && t.effect in {NoExecute};
      assert t.effect in {NoExecute, NoSchedule};
    }
    if t :| t in f.taints && !t.tolerated && t.effect == NoExecute {
      assert t.effect in {NoExecute};
    }
  }

  /** A running pod survives the decision exactly where none of its taints evicts it; elsewhere every
      pod goes that is not on its way already. */
  lemma SurvivesIff(f: Fit, here: set<Pod>, c: Choice, inBackoff: bool)
    requires Possible(here, c) && RunningPods(here) != {}
    ensures c.keep !in Deletes(NodeKind(f), here, c, inBackoff) <==> MayStay(f)
    ensures !MayStay(f) ==> Deletes(NodeKind(f), here, c, inBackoff) == set p | p in here && !p.terminating
  {
    MustGoIff(f);
    if MayStay(f) {
      NotDeleted(here, c, inBackoff);
      assert Deletes(NodeKind(f), here, c, inBackoff) == Deletes(ContinueOnly, here, c, inBackoff);
    }
  }

  /** The pods of a node are the listed ones that target it, less those deleted and stopped. */
  lemma {:induction false} OnNodeIff(pods: seq<ListedPod>, node: string, p: Pod)
    ensures p in OnNode(pods, node) <==>
            exists l :: l in pods && l.pod == p && l.hasTarget && l.target == node
                        && !(p.terminating && (p.phase == Succeeded || p.phase == Failed))
  {
    if pods != [] {
      var front, last := pods[..|pods| - 1], pods[|pods| - 1];
      OnNodeIff(front, node, p);
      assert pods == front + [last];
    }
  }

  // ---- Rounds ----

  /** One round on a node: the decision, the backoff at the time, the pod a create would yield. */
  datatype Round = Round(choice: Choice, inBackoff: bool, created: Pod)

  /** Deletes and creates take effect, and pods on their way out go. */
  ghost function NodeRound(kind: Kind, here: set<Pod>, r: Round): set<Pod> {
    (set p | p in here && !p.terminating && p !in Deletes(kind, here, r.choice, r.inBackoff))
    + (if Creates(kind, here) then {r.created} else {})
  }

  ghost predicate Legal(kind: Kind, here: set<Pod>, rounds: seq<Round>)
    decreases |rounds|
  {
    rounds == [] ||
    (Possible(here, rounds[0].choice) && IsRunning(rounds[0].created)
     && Legal(kind, NodeRound(kind, here, rounds[0]), rounds[1..]))
  }

  ghost function Rounds(kind: Kind, here: set<Pod>, rounds: seq<Round>): set<Pod>
    decreases |rounds|
  {
    if rounds == [] then here else Rounds(kind, NodeRound(kind, here, rounds[0]), rounds[1..])
  }

  /** Rounds outside the failed-pod backoff. */
  ghost function Calm(rounds: seq<Round>): nat {
    if rounds == [] then 0 else (if rounds[0].inBackoff then 0 else 1) + Calm(rounds[1..])
  }

  ghost predicate Stable(kind: Kind, here: set<Pod>) {
    match kind
    case ShouldRun => |here| == 1 && RunningPods(here) == here
    case ContinueOnly => |here| <= 1 && RunningPods(here) == here
    case MustNotRun => here == {}
  }

  /** Stability is exactly having nothing left to decide and no pod on its way out. */
  lemma QuietIffStable(kind: Kind, here: set<Pod>, c: Choice)
    requires Possible(here, c)
    ensures Stable(kind, here) <==>
            !Creates(kind, here) && Deletes(kind, here, c, false) == {} && forall p :: p in here ==> !p.terminating
  {
    if kind == MustNotRun {
      assert forall p :: p in here ==> p.terminating || p in Deletes(kind, here, c, false);
    } else {
      NoDeletesIff(kind, here, c);
      AllAreSomething(here);
    }
  }

  lemma NoDeletesIff(kind: Kind, here: set<Pod>, c: Choice)
    requires kind != MustNotRun && Possible(here, c)
    ensures Deletes(kind, here, c, false) == {} <==>
            FailedPods(here) == {} && SucceededPods(here) == {} && |RunningPods(here)| <= 1
  {
    if FailedPods(here) != {} {
      assert c.failed in Deletes(kind, here, c, false);
    }
    if |RunningPods(here)| > 1 {
      var others := RunningPods(here) - {c.keep};
      assert |others| == |RunningPods(here)| - 1;
      assert others <= Deletes(kind, here, c, false) && others != {};
    }
  }

  lemma AllAreSomething(here: set<Pod>)
    ensures RunningPods(here) == here <==>
            FailedPods(here) == {} && SucceededPods(here) == {} && forall p :: p in here ==> !p.terminating
  {
    if RunningPods(here) == here {
      assert forall p :: p in here ==> p in RunningPods(here);
    } else {
      var p :| p in here && p !in RunningPods(here);
      assert p.terminating || p in FailedPods(here) || p in SucceededPods(here);
    }
  }

  /** Nothing on its way out, nothing succeeded, at most one running. */
  ghost predicate Tidy(here: set<Pod>) {
    && (forall p :: p in here ==> !p.terminating && !p.phase.Succeeded?)
    && |RunningPods(here)| <= 1
  }

  ghost function Distance(kind: Kind, here: set<Pod>): nat {
    if Stable(kind, here) then 0 else |FailedPods(here)| + (if Tidy(here) then 1 else 2)
  }

  lemma RunningAfter(kind: Kind, here: set<Pod>, r: Round)
    requires kind != MustNotRun && here != {} && Possible(here, r.choice)
    ensures RunningPods(NodeRound(kind, here, r)) ==
            if |RunningPods(here)| > 1 then {r.choice.keep} else RunningPods(here)
  {
    var next := NodeRound(kind, here, r);
    forall p ensures p in RunningPods(next) <==>
                     p in (if |RunningPods(here)| > 1 then {r.choice.keep} else RunningPods(here))
    {
      assert p in FailedPods(here) ==> !IsRunning(p);
      assert FailedPods(here) != {} ==> !IsRunning(r.choice.failed);
    }
  }

  lemma FailedAfter(kind: Kind, here: set<Pod>, r: Round)
    requires kind != MustNotRun && here != {} && Possible(here, r.choice)
    ensures FailedPods(NodeRound(kind, here, r)) ==
            FailedPods(here) - (if FailedPods(here) != {} && !r.inBackoff then {r.choice.failed} else {})
  {
    var next := NodeRound(kind, here, r);
    forall p | p in FailedPods(here) ensures p !in SucceededPods(here) && p !in RunningPods(here) {
    }
  }

  lemma RoundTidies(kind: Kind, here: set<Pod>, r: Round)
    requires Possible(here, r.choice) && IsRunning(r.created)
    ensures Tidy(NodeRound(kind, here, r))
  {
    var next := NodeRound(kind, here, r);
    if kind == MustNotRun {
      assert next == {} && RunningPods(next) == {};
    } else if here == {} {
      assert next <= {r.created} && RunningPods(next) == next;
      assert next == {} || next == {r.created};
    } else {
      RunningAfter(kind, here, r);
      forall p | p in next ensures !p.phase.Succeeded? {
        assert p in SucceededPods(here) ==> p in Deletes(kind, here, r.choice, r.inBackoff);
      }
    }
  }

  /** A stable node stays as it is, whatever the backoff says. */
  lemma StableRound(kind: Kind, here: set<Pod>, r: Round)
    requires Stable(kind, here) && Possible(here, r.choice)
    ensures NodeRound(kind, here, r) == here
  {
    if kind != MustNotRun {
      assert forall p :: p in here ==> p in RunningPods(here);
      assert FailedPods(here) == {} && SucceededPods(here) == {};
      assert Deletes(kind, here, r.choice, r.inBackoff) == {};
    }
  }

  lemma TidyWithoutFailed(here: set<Pod>)
    requires Tidy(here)
    ensures FailedPods(here) == {} ==> RunningPods(here) == here && |here| <= 1
  {
    AllAreSomething(here);
    assert SucceededPods(here) == {};
  }

  lemma DistanceFalls(kind: Kind, here: set<Pod>, r: Round)
    requires Possible(here, r.choice) && IsRunning(r.created)
    ensures var d, e := Distance(kind, here), Distance(kind, NodeRound(kind, here, r));
            e <= d && (d > 0 && !r.inBackoff ==> e < d)
  {
    var next := NodeRound(kind, here, r);
    RoundTidies(kind, here, r);
    if Stable(kind, here) {
      StableRound(kind, here, r);
    } else if kind == MustNotRun {
      assert next == {};
    } else if here == {} {
      assert next == {r.created} && RunningPods(next) == next;
    } else {
      FailedAfter(kind, here, r);
      if Tidy(here) { TidyWithoutFailed(here); }
    }
  }

  /** Placement stabilises: on every node, from any pods and for any choices of the list order
      and the sort, enough rounds outside the backoff leave exactly one running pod where the
      NodeSet should run, at most one where it may only continue, none elsewhere; and from then
      on the decision is empty. */
  lemma {:induction false} PlacementStabilises(kind: Kind, here: set<Pod>, rounds: seq<Round>)
    requires Legal(kind, here, rounds) && Calm(rounds) >= |FailedPods(here)| + 2
    ensures Stable(kind, Rounds(kind, here, rounds))
  {
    StabilisesWithin(kind, here, rounds);
  }

  lemma {:induction false} StabilisesWithin(kind: Kind, here: set<Pod>, rounds: seq<Round>)
    requires Legal(kind, here, rounds) && Calm(rounds) >= Distance(kind, here)
    ensures Stable(kind, Rounds(kind, here, rounds))
    decreases |rounds|
  {
    if rounds != [] {
      DistanceFalls(kind, here, rounds[0]);
      StabilisesWithin(kind, NodeRound(kind, here, rounds[0]), rounds[1..]);
    }
  }

  lemma {:induction false} StableForever(kind: Kind, here: set<Pod>, rounds: seq<Round>)
    requires Stable(kind, here) && Legal(kind, here, rounds)
    ensures Rounds(kind, here, rounds) == here
    decreases |rounds|
  {
    if rounds != [] {
      StableRound(kind, here, rounds[0]);
      StableForever(kind, here, rounds[1..]);
    }
  }

  /** The wait for the backoff is real: a should-run node that holds only failed pods runs
      nothing until each of them has had a round outside the backoff. */
  lemma {:induction false} WaitsForFailedPods(here: set<Pod>, rounds: seq<Round>)
    requires Legal(ShouldRun, here, rounds) && here == FailedPods(here) && Calm(rounds) < |here|
    ensures RunningPods(Rounds(ShouldRun, here, rounds)) == {}
    decreases |rounds|
  {
    if rounds != [] {
      var r := rounds[0];
      FailedAfter(ShouldRun, here, r);
      var next := NodeRound(ShouldRun, here, r);
      assert forall p :: p in here ==> !IsRunning(p) && p in FailedPods(here);
      assert next == FailedPods(next);
      WaitsForFailedPods(next, rounds[1..]);
    } else {
      assert forall p :: p in here ==> p in FailedPods(here);
    }
  }
}
