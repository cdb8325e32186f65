/** The cordon and drain operations as they run: step by step on the pod's annotation, the
    Slurm node, the client's cache and the API server. Each is proved against its function in
    Cordon, and the three operations of a reconcile say themselves what they leave alone. */
module CordonController {
  import opened Options
  import opened SlurmNodes
  import opened Cordon

  class CondemnedPod {
    const podKey: string
    const nodeName: string
    const terminating: bool
    const kube: KubeNode
    const kubeFails: bool
    const kubeFailsAgain: bool
    const client: bool
    const apiAnswer: Answer
    const updateAnswer: Answer
    var cordoned: bool
    var deleted: bool
    var node: Option<SlurmNode>
    var cache: Option<SlurmNode>
    var sent: seq<Sent>

    ghost function Abs(): World
      reads this
    {
      World(podKey, nodeName, cordoned, terminating, deleted, kube, kubeFails, kubeFailsAgain,
            client, node, cache, sent, apiAnswer, updateAnswer)
    }

    constructor (w: World)
      ensures Abs() == w
    {
      podKey, nodeName, terminating, kube := w.podKey, w.nodeName, w.terminating, w.kube;
      kubeFails, kubeFailsAgain, client := w.kubeFails, w.kubeFailsAgain, w.client;
      apiAnswer, updateAnswer := w.apiAnswer, w.updateAnswer;
      cordoned, deleted, node, cache, sent := w.cordoned, w.deleted, w.node, w.cache, w.sent;
    }

    /** What happens around the operator before it reads or writes. */
    method Wait(m: Moment)
      modifies this`node, this`cache
      ensures Abs() == Pass(old(Abs()), m)
    {
      if m.change.Becomes? { node := m.change.node; }
      if m.refresh { cache := node; }
    }

    method Read(m: Moment) returns (l: SlurmLookup)
      modifies this`node, this`cache
      ensures Abs() == Pass(old(Abs()), m) && l == Get(Abs(), m)
    {
      Wait(m);
      if !client { return NoClient; }
      if m.fails { return SlurmFailed; }
      l := if cache.None? then Unregistered else Registered(cache.value);
    }

    method SendUpdate(update: Update) returns (err: bool)
      modifies this`node, this`cache, this`sent
      ensures Result(Abs(), err) == Request(old(Abs()), update)
    {
      sent := sent + [Sent(update, kube.Unschedulable(), kubeFails)];
      if updateAnswer.Accepted? && node.Some? {
        node := Some(Applied(node.value, update));
        cache := node;
      }
      err := updateAnswer.Refused?;
    }

    method Drain(reason: string, ms: seq<Moment>, i: nat) returns (err: bool)
      modifies this`node, this`cache, this`sent
      ensures Result(Abs(), err) == MakeNodeDrain(old(Abs()), reason, ms, i)
      ensures reason != "" && AllProper(old(sent)) ==> AllProper(sent)
    {
      if reason != "" && AllProper(sent) { ProperUpdate(Abs(), reason, ms, i); }
      var l := Read(At(ms, i));
      if !l.Registered? { return l.SlurmFailed?; }
      var prefixedReason := Prefixed(reason);
      if DRAIN in l.node.states && l.node.reason == prefixedReason { return false; }
      Wait(At(ms, i + 1));
      err := SendUpdate(DrainUpdate(prefixedReason));
    }

    method Undrain(reason: string, ms: seq<Moment>, i: nat) returns (err: bool)
      modifies this`node, this`cache, this`sent
      ensures Result(Abs(), err) == MakeNodeUndrain(old(Abs()), reason, ms, i)
      ensures reason != "" && AllProper(old(sent)) && (kubeFails || !kube.Unschedulable()) ==> AllProper(sent)
    {
      if reason != "" && AllProper(sent) { ProperUpdate(Abs(), reason, ms, i); }
      var l := Read(At(ms, i));
      if !l.Registered? { return l.SlurmFailed?; }
      if DRAIN !in l.node.states || UNDRAIN in l.node.states { return false; }
      Wait(At(ms, i + 1));
      err := SendUpdate(UndrainUpdate(Prefixed(reason)));
    }

    method PatchCordon(cordon: bool) returns (err: bool)
      modifies this`cordoned
      ensures Result(Abs(), err) == SetCordon(old(Abs()), cordon)
      ensures err <==> cordoned != cordon
    {
      if cordoned == cordon { return false; }
      if !apiAnswer.Accepted? { return true; }
      cordoned := cordon;
      err := false;
    }

    method CordonAndDrain(message: string, ms: seq<Moment>, i: nat) returns (err: bool)
      modifies this`cordoned, this`node, this`cache, this`sent
      ensures Result(Abs(), err) == MakePodCordonAndDrain(old(Abs()), message, ms, i)
    {
      err := PatchCordon(true);
      if err { return; }
      var l := Read(At(ms, i));
      if l.SlurmFailed? { return true; }
      if SaysDrain(l) { return false; }
      var reason := PodReason(podKey, "has been cordoned");
      if message != "" { reason := message; }
      err := Drain(reason, ms, i + 1);
    }

    method UncordonAndUndrain(ms: seq<Moment>, i: nat) returns (err: bool)
      modifies this`cordoned, this`node, this`cache, this`sent
      ensures Result(Abs(), err) == MakePodUncordonAndUndrain(old(Abs()), ms, i)
    {
      err := PatchCordon(false);
      if err { return; }
      var l := Read(At(ms, i));
      if l.SlurmFailed? { return true; }
      if !SaysDrain(l) { return false; }
      err := Undrain(PodReason(podKey, "has been uncordoned"), ms, i + 1);
    }

    method PropagateCordon(ms: seq<Moment>) returns (err: bool)
      modifies this`cordoned, this`node, this`cache, this`sent
      ensures Result(Abs(), err) == SyncCordon(old(Abs()), ms)
      ensures forall reason :: old(DrainSeen(Abs(), reason)) && AllHandsOff(ms, reason) ==>
                DrainSeen(Abs(), reason) && sent == old(sent)
      ensures AllProper(old(sent)) ==> AllProper(sent)
    {
      ghost var before := Abs();
      WhatItLeavesAlone(before, Cordoning, ms);
      if kubeFails { return true; }
      if kube.Missing? { return false; }
      var l1 := Read(At(ms, 0));
      if l1.SlurmFailed? { return true; }
      var l2 := Read(At(ms, 1));
      if l2.SlurmFailed? { return true; }
      if !SaysOurs(l2) || SaysUnresponsive(l1) { return false; }
      err := Switch(ms);
    }

    method Switch(ms: seq<Moment>) returns (err: bool)
      requires kube.Present?
      modifies this`cordoned, this`node, this`cache, this`sent
      ensures Result(Abs(), err) == SyncCordonSwitch(old(Abs()), ms)
    {
      if kube.unschedulable {
        if kubeFailsAgain { return true; }
        var reason := "Node (" + nodeName + ") was cordoned, Pod (" + podKey + ") must be cordoned";
        if kube.cordonReason.Some? { reason := kube.cordonReason.value; }
        err := CordonAndDrain(reason, ms, 2);
      } else if cordoned {
        err := Drain(PodReason(podKey, "was cordoned"), ms, 2);
      } else {
        err := Undrain(PodReason(podKey, "was uncordoned"), ms, 2);
      }
    }

    method Uncordon(ms: seq<Moment>) returns (err: bool)
      modifies this`cordoned, this`node, this`cache, this`sent
      ensures Result(Abs(), err) == SyncPodUncordon(old(Abs()), ms)
      ensures forall reason :: old(DrainSeen(Abs(), reason)) && AllHandsOff(ms, reason) ==>
                DrainSeen(Abs(), reason) && sent == old(sent)
      ensures AllProper(old(sent)) ==> AllProper(sent)
    {
      WhatItLeavesAlone(Abs(), Uncordoning, ms);
      if !kubeFails && kube.Unschedulable() { return false; }
      var l := Read(At(ms, 0));
      if l.SlurmFailed? { return true; }
      if !SaysOurs(l) { return false; }
      err := UncordonAndUndrain(ms, 1);
    }

    method Condemn(ms: seq<Moment>) returns (err: bool)
      modifies this
      ensures Result(Abs(), err) == ProcessCondemned(old(Abs()), ms)
      ensures forall reason :: old(DrainSeen(Abs(), reason)) && AllHandsOff(ms, reason) ==>
                DrainSeen(Abs(), reason) && sent == old(sent)
      ensures AllProper(old(sent)) ==> AllProper(sent)
    {
      WhatItLeavesAlone(Abs(), Condemning, ms);
      if deleted || terminating { return false; }
      var l := Read(At(ms, 0));
      if l.SlurmFailed? { return true; }
      if l.Registered? && !IsDrained(l.node.states) {
        err := CordonAndDrain(PodReason(podKey, "was cordoned pending termination"), ms, 1);
        return;
      }
      if apiAnswer.Accepted? { deleted := true; }
      err := apiAnswer.Refused?;
    }
  }

  lemma WhatItLeavesAlone(w: World, op: Operation, ms: seq<Moment>)
    ensures forall reason :: DrainSeen(w, reason) && AllHandsOff(ms, reason) ==>
              DrainSeen(Perform(w, op, ms).world, reason) && Perform(w, op, ms).world.sent == w.sent
    ensures AllProper(w.sent) ==> AllProper(Perform(w, op, ms).world.sent)
  {
    forall reason | DrainSeen(w, reason) && AllHandsOff(ms, reason)
      ensures DrainSeen(Perform(w, op, ms).world, reason) && Perform(w, op, ms).world.sent == w.sent
    {
      DrainSeenIsKept(w, op, ms, reason);
    }
    if AllProper(w.sent) { ProperStep(w, Operate(op, ms)); }
  }
}
