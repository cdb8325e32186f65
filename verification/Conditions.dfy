/** Slurm states mirrored as pod conditions, and the protect label read off them. */
module Conditions {
  import opened Options
  import SlowStart
  import opened SlurmNodes

  const STATE_PREFIX := "SlurmNodeState"

  datatype Condition = Condition(kind: string, isTrue: bool, message: string)

  function Suffix(s: NodeState): (r: string)
    ensures |r| >= 4
  {
    match s
    case ALLOCATED => "Allocated"
    case DOWN => "Down"
    case ERROR => "Error"
    case FUTURE => "Future"
    case IDLE => "Idle"
    case MIXED => "Mixed"
    case UNKNOWN => "Unknown"
    case COMPLETING => "Completing"
    case DRAIN => "Drain"
    case FAIL => "Fail"
    case INVALID => "Invalid"
    case INVALIDREG => "InvalidReg"
    case MAINTENANCE => "Maintenance"
    case NOTRESPONDING => "NotResponding"
    case UNDRAIN => "Undrain"
  }

  function TypeOf(s: NodeState): (t: string)
    ensures IsSlurm(t)
  {
    var t := STATE_PREFIX + Suffix(s);
    assert t[..|STATE_PREFIX|] == STATE_PREFIX;
    t
  }

  predicate IsSlurm(t: string) { HasPrefix(t, STATE_PREFIX) }

  /** Length, first and third letter tell the suffixes apart. */
  ghost function Mark(s: string): (int, char, char)
    requires |s| >= 4
  {
    (|s|, s[0], s[2])
  }

  lemma MarksDiffer(a: NodeState, b: NodeState)
    requires Mark(Suffix(a)) == Mark(Suffix(b))
    ensures a == b
  {
  }

  lemma TypesDiffer(a: NodeState, b: NodeState)
    ensures TypeOf(a) == TypeOf(b) <==> a == b
  {
    if TypeOf(a) == TypeOf(b) {
      assert TypeOf(a)[|STATE_PREFIX|..] == Suffix(a) && TypeOf(b)[|STATE_PREFIX|..] == Suffix(b);
      MarksDiffer(a, b);
    }
  }

  // ---- What a Slurm node reports ----

  /** The first base state in the switch's order, if any. */
  function BaseOf(states: set<NodeState>): seq<NodeState> {
    if ALLOCATED in states then [ALLOCATED]
    else if DOWN in states then [DOWN]
    else if ERROR in states then [ERROR]
    else if FUTURE in states then [FUTURE]
    else if IDLE in states then [IDLE]
    else if MIXED in states then [MIXED]
    else if UNKNOWN in states then [UNKNOWN]
    else []
  }

  const FLAGS: seq<NodeState> := [COMPLETING, DRAIN, FAIL, INVALID, INVALIDREG, MAINTENANCE, NOTRESPONDING, UNDRAIN]
  const BASES: set<NodeState> := {ALLOCATED, DOWN, ERROR, FUTURE, IDLE, MIXED, UNKNOWN}

  function Kept(order: seq<NodeState>, states: set<NodeState>): (r: seq<NodeState>)
    ensures forall s :: s in r <==> s in order && s in states
  {
    if order == [] then [] else (if order[0] in states then [order[0]] else []) + Kept(order[1..], states)
  }

  function Reported(states: set<NodeState>): seq<NodeState> {
    BaseOf(states) + Kept(FLAGS, states)
  }

  const BASE_ORDER: seq<NodeState> := [ALLOCATED, DOWN, ERROR, FUTURE, IDLE, MIXED, UNKNOWN]

  /** The base state reported is the first the node has in this order. */
  lemma BaseIsFirst(states: set<NodeState>, i: nat)
    requires i < |BASE_ORDER|
    ensures BaseOf(states) == [BASE_ORDER[i]] <==>
            BASE_ORDER[i] in states && forall j :: 0 <= j < i ==> BASE_ORDER[j] !in states
  {
    assert BASE_ORDER[0] == ALLOCATED && BASE_ORDER[1] == DOWN && BASE_ORDER[2] == ERROR && BASE_ORDER[3] == FUTURE;
    assert BASE_ORDER[4] == IDLE && BASE_ORDER[5] == MIXED && BASE_ORDER[6] == UNKNOWN;
  }

  /** Only a base state can be hidden, and only behind an earlier one. */
  predicate Hides(states: set<NodeState>, s: NodeState) {
    s in BASES && BaseOf(states) != [s]
  }

  lemma ReportedIff(states: set<NodeState>, s: NodeState)
    ensures s in Reported(states) <==> s in states && !Hides(states, s)
  {
    FlagOrBase(s);
    BaseOfIff(states, s);
  }

  lemma FlagOrBase(s: NodeState)
    ensures s in FLAGS <==> s !in BASES
  {
    assert FLAGS[0] == COMPLETING && FLAGS[1] == DRAIN && FLAGS[2] == FAIL && FLAGS[3] == INVALID;
    assert FLAGS[4] == INVALIDREG && FLAGS[5] == MAINTENANCE && FLAGS[6] == NOTRESPONDING && FLAGS[7] == UNDRAIN;
  }

  lemma BaseOfIff(states: set<NodeState>, s: NodeState)
    ensures s in BaseOf(states) <==> BaseOf(states) == [s]
    ensures s in BaseOf(states) ==> s in states && s in BASES
  {
  }

  function ConditionsOf(order: seq<NodeState>, reason: string): (r: seq<Condition>)
    ensures |r| == |order|
    ensures forall i :: 0 <= i < |r| ==> r[i] == Condition(TypeOf(order[i]), true, reason)
  {
    seq(|order|, i requires 0 <= i < |order| => Condition(TypeOf(order[i]), true, reason))
  }

  function NodeConditions(node: SlurmNode): seq<Condition> {
    ConditionsOf(Reported(node.states), node.reason)
  }

  // ---- CalculateNodeStatus ----

  datatype NamedNode = NamedNode(name: string, node: SlurmNode)

  /** The conditions gathered under a name. */
  function NodeStates(nodes: seq<NamedNode>, name: string): seq<Condition> {
    if nodes == [] then [] else
      var last := nodes[|nodes| - 1];
      NodeStates(nodes[..|nodes| - 1], name) +
      (if last.name == name then NodeConditions(last.node) else [])
  }

  function CountOf(counts: map<NodeState, nat>, s: NodeState): nat {
    if s in counts then counts[s] else 0
  }

  /** How many of our nodes report s. */
  ghost function Reporting(nodes: seq<NamedNode>, names: set<string>, s: NodeState): nat {
    if nodes == [] then 0 else
      var last := nodes[|nodes| - 1];
      Reporting(nodes[..|nodes| - 1], names, s) +
      (if last.name in names then One(s in Reported(last.node.states)) else 0)
  }

  ghost function Ours(nodes: seq<NamedNode>, names: set<string>): nat {
    if nodes == [] then 0 else
      Ours(nodes[..|nodes| - 1], names) + (if nodes[|nodes| - 1].name in names then 1 else 0)
  }

  lemma ReportedOnce(states: set<NodeState>)
    ensures var r := Reported(states); forall i, j :: 0 <= i < j < |r| ==> r[i] != r[j]
  {
    assert forall i, j :: 0 <= i < j < |FLAGS| ==> FLAGS[i] != FLAGS[j];
    KeptOnce(FLAGS, states);
    assert |BaseOf(states)| <= 1;
    if BaseOf(states) != [] {
      assert BaseOf(states)[0] !in Kept(FLAGS, states) by {
        BaseOfIff(states, BaseOf(states)[0]);
        FlagOrBase(BaseOf(states)[0]);
      }
    }
  }

  lemma {:induction false} KeptOnce(order: seq<NodeState>, states: set<NodeState>)
    requires forall i, j :: 0 <= i < j < |order| ==> order[i] != order[j]
    ensures var r := Kept(order, states); forall i, j :: 0 <= i < j < |r| ==> r[i] != r[j]
  {
    if order != [] {
      KeptOnce(order[1..], states);
      assert order[0] !in Kept(order[1..], states);
    }
  }

  /** One counter step for every state reported. */
  method CountStates(counts: map<NodeState, nat>, states: set<NodeState>) returns (r: map<NodeState, nat>)
    ensures forall s :: CountOf(r, s) == CountOf(counts, s) + (if s in Reported(states) then 1 else 0)
  {
    r := counts;
    var reported := Reported(states);
    ReportedOnce(states);
    for i := 0 to |reported|
      invariant forall s :: CountOf(r, s) == CountOf(counts, s) + (if s in reported[..i] then 1 else 0)
    {
      var s := reported[i];
      assert reported[..i + 1] == reported[..i] + [s];
      assert s !in reported[..i];
      r := r[s := CountOf(r, s) + 1];
    }
    assert reported[..|reported|] == reported;
  }

  ghost predicate CountsAre(counts: map<NodeState, nat>, nodes: seq<NamedNode>, names: set<string>) {
    forall s :: CountOf(counts, s) == Reporting(nodes, names, s)
  }

  ghost predicate StatesAre(states: map<string, seq<Condition>>, nodes: seq<NamedNode>, names: set<string>) {
    && (forall n :: n in names ==> StatesAt(states, n) == NodeStates(nodes, n))
    && (forall n :: n in states ==> n in names)
  }

  method CalculateNodeStatus(nodes: seq<NamedNode>, names: set<string>)
    returns (total: nat, counts: map<NodeState, nat>, states: map<string, seq<Condition>>)
    ensures total == Ours(nodes, names)
    ensures CountsAre(counts, nodes, names)
    ensures StatesAre(states, nodes, names)
  {
    total, counts, states := 0, map[], map[];
    for i := 0 to |nodes|
      invariant total == Ours(nodes[..i], names)
      invariant CountsAre(counts, nodes[..i], names)
      invariant StatesAre(states, nodes[..i], names)
    {
      var it := nodes[i];
      assert nodes[..i + 1] == nodes[..i] + [it];
      ghost var before := counts;
      StatusStep(counts, states, nodes[..i], it, names);
      if it.name !in names { continue; }
      total := total + 1;
      counts := CountStates(counts, it.node.states);
      CountStep(before, counts, nodes[..i], it, names);
      states := states[it.name := StatesAt(states, it.name) + NodeConditions(it.node)];
    }
    assert nodes[..|nodes|] == nodes;
  }

  lemma CountStep(
    before: map<NodeState, nat>, after: map<NodeState, nat>, nodes: seq<NamedNode>, it: NamedNode, names: set<string>)
    requires CountsAre(before, nodes, names) && it.name in names
    requires forall s :: CountOf(after, s) == CountOf(before, s) + (if s in Reported(it.node.states) then 1 else 0)
    ensures CountsAre(after, nodes + [it], names)
  {
    assert (nodes + [it])[..|nodes|] == nodes;
  }

  lemma StatusStep(
    counts: map<NodeState, nat>, states: map<string, seq<Condition>>, nodes: seq<NamedNode>, it: NamedNode,
    names: set<string>)
    requires CountsAre(counts, nodes, names) && StatesAre(states, nodes, names)
    ensures Ours(nodes + [it], names) == Ours(nodes, names) + One(it.name in names)
    ensures it.name !in names ==> CountsAre(counts, nodes + [it], names) && StatesAre(states, nodes + [it], names)
    ensures it.name in names ==>
              StatesAre(states[it.name := StatesAt(states, it.name) + NodeConditions(it.node)], nodes + [it], names)
  {
    assert (nodes + [it])[..|nodes|] == nodes;
  }

  function StatesAt(states: map<string, seq<Condition>>, name: string): seq<Condition> {
    if name in states then states[name] else []
  }

  ghost predicate NamesDistinct(nodes: seq<NamedNode>) {
    forall i, j :: 0 <= i < j < |nodes| ==> nodes[i].name != nodes[j].name
  }

  lemma {:induction false} NoneNamed(nodes: seq<NamedNode>, name: string)
    requires forall i :: 0 <= i < |nodes| ==> nodes[i].name != name
    ensures NodeStates(nodes, name) == []
  {
    if nodes != [] { NoneNamed(nodes[..|nodes| - 1], name); }
  }

  lemma {:induction false} NodeStatesOf(nodes: seq<NamedNode>, k: nat)
    requires NamesDistinct(nodes) && k < |nodes|
    ensures NodeStates(nodes, nodes[k].name) == NodeConditions(nodes[k].node)
  {
    var n := |nodes| - 1;
    if k == n {
      NoneNamed(nodes[..n], nodes[k].name);
    } else {
      NodeStatesOf(nodes[..n], k);
    }
  }

  /** The seven base counters partition the nodes that report a base state. */
  lemma {:induction false} BaseCountersPartition(nodes: seq<NamedNode>, names: set<string>)
    ensures Reporting(nodes, names, ALLOCATED) + Reporting(nodes, names, DOWN) + Reporting(nodes, names, ERROR)
            + Reporting(nodes, names, FUTURE) + Reporting(nodes, names, IDLE) + Reporting(nodes, names, MIXED)
            + Reporting(nodes, names, UNKNOWN) + Baseless(nodes, names) == Ours(nodes, names)
  {
    if nodes != [] {
      var n := |nodes| - 1;
      BaseCountersPartition(nodes[..n], names);
      OneBaseReported(nodes[n].node.states);
    }
  }

  ghost function One(b: bool): nat { if b then 1 else 0 }

  lemma OneBaseReported(states: set<NodeState>)
    ensures var r := Reported(states);
            One(ALLOCATED in r) + One(DOWN in r) + One(ERROR in r) + One(FUTURE in r) + One(IDLE in r)
            + One(MIXED in r) + One(UNKNOWN in r) + One(states !! BASES) == 1
  {
    ReportedIff(states, ALLOCATED);
    ReportedIff(states, DOWN);
    ReportedIff(states, ERROR);
    ReportedIff(states, FUTURE);
    ReportedIff(states, IDLE);
    ReportedIff(states, MIXED);
    ReportedIff(states, UNKNOWN);
  }

  ghost function Baseless(nodes: seq<NamedNode>, names: set<string>): nat {
    if nodes == [] then 0 else
      var last := nodes[|nodes| - 1];
      Baseless(nodes[..|nodes| - 1], names) + (if last.name in names then One(last.node.states !! BASES) else 0)
  }

  // ---- Rewriting a pod's conditions ----

  /** GetPodCondition: the first condition of a type. */
  function Lookup(conds: seq<Condition>, t: string): (r: Option<Condition>)
    ensures r.Some? ==> r.value.kind == t && r.value in conds
    ensures r.None? ==> forall c :: c in conds ==> c.kind != t
  {
    if conds == [] then None else if conds[0].kind == t then Some(conds[0]) else Lookup(conds[1..], t)
  }

  /** UpdatePodCondition: replace the first condition of the type, or append. */
  function UpdateOne(conds: seq<Condition>, c: Condition): seq<Condition> {
    if conds == [] then [c]
    else if conds[0].kind == c.kind then [c] + conds[1..]
    else [conds[0]] + UpdateOne(conds[1..], c)
  }

  function UpdateAll(conds: seq<Condition>, present: seq<Condition>): seq<Condition> {
    if present == [] then conds else
      UpdateOne(UpdateAll(conds, present[..|present| - 1]), present[|present| - 1])
  }

  /** What the pod already says about the states still present. */
  function StillPresent(all: seq<Condition>, present: seq<Condition>): seq<Condition> {
    if present == [] then [] else
      StillPresent(all, present[..|present| - 1]) + Found(Lookup(all, present[|present| - 1].kind))
  }

  function Found(r: Option<Condition>): seq<Condition> { if r.Some? then [r.value] else [] }

  /** The filter writes all of them once for each Slurm condition it meets. */
  function Filtered(conds: seq<Condition>, all: seq<Condition>, present: seq<Condition>): seq<Condition> {
    if conds == [] then [] else
      var last := conds[|conds| - 1];
      Filtered(conds[..|conds| - 1], all, present) +
      (if IsSlurm(last.kind) then StillPresent(all, present) else [last])
  }

  function Updated(conds: seq<Condition>, present: seq<Condition>): seq<Condition> {
    UpdateAll(Filtered(conds, conds, present), present)
  }

  method UpdateConditions(conds: seq<Condition>, present: seq<Condition>) returns (r: seq<Condition>)
    ensures r == Updated(conds, present)
  {
    r := [];
    for i := 0 to |conds|
      invariant r == Filtered(conds[..i], conds, present)
    {
      assert conds[..i + 1][..i] == conds[..i];
      if !IsSlurm(conds[i].kind) {
        r := r + [conds[i]];
      } else {
        ghost var before := r;
        for j := 0 to |present|
          invariant r == before + StillPresent(conds, present[..j])
        {
          assert present[..j + 1][..j] == present[..j];
          var c := Lookup(conds, present[j].kind);
          if c.Some? { r := r + [c.value]; }
        }
        assert present[..|present|] == present;
      }
    }
    assert conds[..|conds|] == conds;
    ghost var filtered := r;
    for j := 0 to |present|
      invariant r == UpdateAll(filtered, present[..j])
    {
      assert present[..j + 1][..j] == present[..j];
      r := UpdateOne(r, present[j]);
    }
    assert present[..|present|] == present;
  }

  // ---- Conditions that are not ours ----

  function NonSlurm(conds: seq<Condition>): seq<Condition> {
    if conds == [] then [] else
      (if IsSlurm(conds[0].kind) then [] else [conds[0]]) + NonSlurm(conds[1..])
  }

  ghost predicate AllSlurm(conds: seq<Condition>) { forall c :: c in conds ==> IsSlurm(c.kind) }

  lemma {:induction false} NonSlurmConcat(a: seq<Condition>, b: seq<Condition>)
    ensures NonSlurm(a + b) == NonSlurm(a) + NonSlurm(b)
  {
    if a == [] {
      assert a + b == b;
    } else {
      assert (a + b)[1..] == a[1..] + b;
      NonSlurmConcat(a[1..], b);
    }
  }

  lemma {:induction false} NonSlurmEmpty(a: seq<Condition>)
    requires AllSlurm(a)
    ensures NonSlurm(a) == []
  {
    if a != [] { NonSlurmEmpty(a[1..]); }
  }

  lemma {:induction false} StillPresentKinds(all: seq<Condition>, present: seq<Condition>)
    ensures forall c :: c in StillPresent(all, present) ==> exists p :: p in present && p.kind == c.kind
  {
    if present != [] {
      StillPresentKinds(all, present[..|present| - 1]);
      assert present[|present| - 1] in present;
    }
  }

  lemma {:induction false} FilteredNonSlurm(conds: seq<Condition>, all: seq<Condition>, present: seq<Condition>)
    requires AllSlurm(present)
    ensures NonSlurm(Filtered(conds, all, present)) == NonSlurm(conds)
  {
    if conds != [] {
      var n := |conds| - 1;
      FilteredNonSlurm(conds[..n], all, present);
      var more := if IsSlurm(conds[n].kind) then StillPresent(all, present) else [conds[n]];
      NonSlurmConcat(Filtered(conds[..n], all, present), more);
      assert conds == conds[..n] + [conds[n]];
      NonSlurmConcat(conds[..n], [conds[n]]);
      StillPresentKinds(all, present);
      NonSlurmEmpty(StillPresent(all, present));
      assert NonSlurm([conds[n]]) == if IsSlurm(conds[n].kind) then [] else [conds[n]];
    }
  }

  lemma {:induction false} UpdateOneNonSlurm(conds: seq<Condition>, c: Condition)
    requires IsSlurm(c.kind)
    ensures NonSlurm(UpdateOne(conds, c)) == NonSlurm(conds)
  {
    if conds != [] && conds[0].kind != c.kind {
      UpdateOneNonSlurm(conds[1..], c);
    }
  }

  lemma {:induction false} UpdateAllNonSlurm(conds: seq<Condition>, present: seq<Condition>)
    requires AllSlurm(present)
    ensures NonSlurm(UpdateAll(conds, present)) == NonSlurm(conds)
  {
    if present != [] {
      var n := |present| - 1;
      assert present[n] in present;
      UpdateAllNonSlurm(conds, present[..n]);
      UpdateOneNonSlurm(UpdateAll(conds, present[..n]), present[n]);
    }
  }

  /** Conditions that are not Slurm states are untouched: same ones, same values, same order. */
  lemma OthersUntouched(conds: seq<Condition>, present: seq<Condition>)
    requires AllSlurm(present)
    ensures NonSlurm(Updated(conds, present)) == NonSlurm(conds)
  {
    FilteredNonSlurm(conds, conds, present);
    UpdateAllNonSlurm(Filtered(conds, conds, present), present);
  }

  // ---- Conditions that are ours ----

  lemma {:induction false} LookupUpdateOne(conds: seq<Condition>, c: Condition, t: string)
    ensures Lookup(UpdateOne(conds, c), t) == if t == c.kind then Some(c) else Lookup(conds, t)
  {
    if conds != [] && conds[0].kind != c.kind {
      LookupUpdateOne(conds[1..], c, t);
    }
  }

  /** The last of the present conditions with the type, or what was there. */
  lemma {:induction false} LookupUpdateAll(conds: seq<Condition>, present: seq<Condition>, t: string)
    ensures var r := Lookup(UpdateAll(conds, present), t);
            if exists p :: p in present && p.kind == t then r.Some? && r.value in present && r.value.kind == t
            else r == Lookup(conds, t)
  {
    if present != [] {
      var n := |present| - 1;
      LookupUpdateAll(conds, present[..n], t);
      LookupUpdateOne(UpdateAll(conds, present[..n]), present[n], t);
      assert present == present[..n] + [present[n]];
    }
  }

  lemma {:induction false} FilteredDrops(conds: seq<Condition>, all: seq<Condition>, present: seq<Condition>, t: string)
    requires IsSlurm(t) && forall p :: p in present ==> p.kind != t
    ensures Lookup(Filtered(conds, all, present), t) == None
  {
    if conds != [] {
      FilteredDrops(conds[..|conds| - 1], all, present, t);
      StillPresentKinds(all, present);
      assert forall c :: c in Filtered(conds, all, present) ==> c.kind != t;
    }
  }

  predicate IsConditionTrue(conds: seq<Condition>, t: string) {
    Lookup(conds, t).Some? && Lookup(conds, t).value.isTrue
  }

  predicate Shows(conds: seq<Condition>, s: NodeState) { IsConditionTrue(conds, TypeOf(s)) }

  /** After the update a pod's Slurm conditions are what its node reports, whatever it said before. */
  lemma SlurmConditionIff(conds: seq<Condition>, states: set<NodeState>, reason: string, s: NodeState)
    ensures Shows(Updated(conds, ConditionsOf(Reported(states), reason)), s) <==> s in states && !Hides(states, s)
  {
    ReportedIff(states, s);
    ShowsIffReported(conds, Reported(states), reason, s);
  }

  lemma ShowsIffReported(conds: seq<Condition>, reported: seq<NodeState>, reason: string, s: NodeState)
    ensures Shows(Updated(conds, ConditionsOf(reported, reason)), s) <==> s in reported
  {
    var present := ConditionsOf(reported, reason);
    PresentIff(reported, reason, s);
    LookupUpdateAll(Filtered(conds, conds, present), present, TypeOf(s));
    if s !in reported {
      FilteredDrops(conds, conds, present, TypeOf(s));
    }
  }

  lemma PresentIff(reported: seq<NodeState>, reason: string, s: NodeState)
    ensures var present := ConditionsOf(reported, reason);
            && ((exists p :: p in present && p.kind == TypeOf(s)) <==> s in reported)
            && forall p :: p in present ==> p.isTrue
  {
    var present := ConditionsOf(reported, reason);
    if s in reported {
      var i :| 0 <= i < |reported| && reported[i] == s;
      assert present[i].kind == TypeOf(s) && present[i] in present;
    } else {
      forall p | p in present ensures p.kind != TypeOf(s) {
        var i :| 0 <= i < |present| && present[i] == p;
        TypesDiffer(reported[i], s);
      }
    }
  }

  /** A state's condition carries the node's reason. */
  lemma ConditionCarriesReason(conds: seq<Condition>, node: SlurmNode, s: NodeState)
    requires s in Reported(node.states)
    ensures Lookup(Updated(conds, NodeConditions(node)), TypeOf(s)) == Some(Condition(TypeOf(s), true, node.reason))
  {
    var reported, present := Reported(node.states), NodeConditions(node);
    PresentIff(reported, node.reason, s);
    LookupUpdateAll(Filtered(conds, conds, present), present, TypeOf(s));
    forall c | c in present ensures c == Condition(c.kind, true, node.reason) {
      var i :| 0 <= i < |present| && present[i] == c;
    }
  }

  predicate IsNodeBusy(conds: seq<Condition>) {
    Shows(conds, ALLOCATED) || Shows(conds, MIXED) || Shows(conds, COMPLETING)
  }

  predicate IsNodeDrain(conds: seq<Condition>) {
    Shows(conds, DRAIN) && !Shows(conds, UNDRAIN)
  }

  predicate IsNodeDrained(conds: seq<Condition>) { IsNodeDrain(conds) && !IsNodeBusy(conds) }

  /** The conditions by name. */
  lemma ReadByName(conds: seq<Condition>)
    ensures IsNodeBusy(conds) <==>
            || IsConditionTrue(conds, "SlurmNodeStateAllocated") || IsConditionTrue(conds, "SlurmNodeStateMixed")
            || IsConditionTrue(conds, "SlurmNodeStateCompleting")
    ensures IsNodeDrain(conds) <==>
            IsConditionTrue(conds, "SlurmNodeStateDrain") && !IsConditionTrue(conds, "SlurmNodeStateUndrain")
  {
    assert TypeOf(ALLOCATED) == "SlurmNodeStateAllocated" && TypeOf(MIXED) == "SlurmNodeStateMixed";
    assert TypeOf(COMPLETING) == "SlurmNodeStateCompleting";
    assert TypeOf(DRAIN) == "SlurmNodeStateDrain" && TypeOf(UNDRAIN) == "SlurmNodeStateUndrain";
  }

  /** MIXED is the only sign of work, and an earlier base state hides it. */
  predicate WorkHidden(states: set<NodeState>) {
    && MIXED in states && ALLOCATED !in states && COMPLETING !in states
    && (DOWN in states || ERROR in states || FUTURE in states || IDLE in states)
  }

  /** The conditions tell the truth about work and draining exactly when no work is hidden. */
  lemma ConditionsTruthfulIff(conds: seq<Condition>, states: set<NodeState>, reason: string)
    ensures var after := Updated(conds, ConditionsOf(Reported(states), reason));
            && (IsNodeBusy(after) == IsBusy(states) <==> !WorkHidden(states))
            && (IsNodeDrained(after) == IsDrained(states) <==> !(WorkHidden(states) && IsDraining(states)))
            && IsNodeDrain(after) == IsDraining(states)
  {
    SlurmConditionIff(conds, states, reason, ALLOCATED);
    SlurmConditionIff(conds, states, reason, MIXED);
    SlurmConditionIff(conds, states, reason, COMPLETING);
    SlurmConditionIff(conds, states, reason, DRAIN);
    SlurmConditionIff(conds, states, reason, UNDRAIN);
    TruthIff(Updated(conds, ConditionsOf(Reported(states), reason)), states);
  }

  lemma TruthIff(after: seq<Condition>, states: set<NodeState>)
    requires forall s :: s in {ALLOCATED, MIXED, COMPLETING, DRAIN, UNDRAIN} ==>
               (Shows(after, s) <==> s in states && !Hides(states, s))
    ensures IsNodeBusy(after) == IsBusy(states) <==> !WorkHidden(states)
    ensures IsNodeDrained(after) == IsDrained(states) <==> !(WorkHidden(states) && IsDraining(states))
    ensures IsNodeDrain(after) == IsDraining(states)
  {
    assert Shows(after, ALLOCATED) <==> ALLOCATED in states;
    assert Shows(after, COMPLETING) <==> COMPLETING in states;
    assert Shows(after, DRAIN) <==> DRAIN in states;
    assert Shows(after, UNDRAIN) <==> UNDRAIN in states;
    assert Shows(after, MIXED) || ALLOCATED in states || COMPLETING in states <==>
           IsBusy(states) && !WorkHidden(states);
  }

  ghost predicate OneBase(states: set<NodeState>) {
    forall a, b :: a in states && b in states && a in BASES && b in BASES ==> a == b
  }

  lemma OneBaseHidesNothing(states: set<NodeState>)
    requires OneBase(states)
    ensures !WorkHidden(states)
  {
    assert MIXED in BASES && DOWN in BASES && ERROR in BASES && FUTURE in BASES && IDLE in BASES;
  }

  // ---- The status sync over all pods ----

  datatype Patch = Stored | NotFound | Refused

  /** How labelling one pod goes: done, the pod is gone, refused before the label is written, or
      refused when the same patch is sent a second time. */
  datatype Labelling = Done | Gone | RefusedFirst | RefusedAgain

  predicate Fails(l: Labelling) { l.RefusedFirst? || l.RefusedAgain? }
  predicate Writes(l: Labelling) { l.Done? || l.RefusedAgain? }

  datatype PodStatus = PodStatus(slurmName: string, conditions: seq<Condition>, protect: bool)

  /** Patches stop at the first that is not stored. */
  ghost function Reached(patches: seq<Patch>): (n: nat)
    ensures n <= |patches|
    ensures forall i :: 0 <= i < n ==> patches[i].Stored?
    ensures n < |patches| ==> !patches[n].Stored?
  {
    if patches == [] || !patches[0].Stored? then 0 else 1 + Reached(patches[1..])
  }

  function Rewritten(p: PodStatus, states: map<string, seq<Condition>>, reached: bool): PodStatus {
    if reached then p.(conditions := Updated(p.conditions, StatesAt(states, p.slurmName))) else p
  }

  function Relabelled(p: PodStatus, protection: bool, written: bool): PodStatus {
    if written then p.(protect := IsNodeBusy(p.conditions) && protection) else p
  }

  /** The pods of a NodeSet as the API server holds them. */
  class PodStatuses {
    var pods: seq<PodStatus>

    /** updateNodeSetPodConditions: a vanished pod ends the loop without an error. */
    method UpdateNodeSetPodConditions(states: map<string, seq<Condition>>, patches: seq<Patch>) returns (err: bool)
      requires |patches| == |pods|
      modifies this
      ensures |pods| == |old(pods)|
      ensures forall i :: 0 <= i < |pods| ==> pods[i] == Rewritten(old(pods)[i], states, i < Reached(patches))
      ensures err <==> Reached(patches) < |patches| && patches[Reached(patches)].Refused?
    {
      for i := 0 to |pods|
        invariant |pods| == |old(pods)|
        invariant i <= Reached(patches)
        invariant forall k :: 0 <= k < |pods| ==> pods[k] == Rewritten(old(pods)[k], states, k < i)
      {
        var it := pods[i];
        var conditions := UpdateConditions(it.conditions, StatesAt(states, it.slurmName));
        if !patches[i].Stored? { return patches[i].Refused?; }
        pods := pods[i := it.(conditions := conditions)];
      }
      err := false;
    }

    /** updateNodeSetPodPDBLabels: slow-start batches, so a failure leaves later pods as they were. */
    method UpdateNodeSetPodPDBLabels(protection: bool, labels: seq<Labelling>) returns (err: bool, ghost reached: nat)
      requires |labels| == |pods|
      modifies this
      ensures |pods| == |old(pods)| && reached <= |pods|
      ensures forall i :: 0 <= i < |pods| ==>
                pods[i] == Relabelled(old(pods)[i], protection, i < reached && Writes(labels[i]))
      ensures forall i :: 0 <= i < reached && (labels[i] == Done || labels[i] == RefusedAgain) ==>
                (pods[i].protect <==> IsNodeBusy(old(pods)[i].conditions) && protection)
      ensures forall i :: 0 <= i < |pods| && (reached <= i || labels[i] == Gone || labels[i] == RefusedFirst) ==>
                pods[i] == old(pods)[i]
      ensures !err ==> reached == |pods| && forall i :: 0 <= i < |pods| ==> !Fails(labels[i])
      ensures err ==> exists i :: 0 <= i < reached && Fails(labels[i])
      ensures forall f :: 0 <= f < reached && Fails(labels[f]) ==> reached <= 2 * f + 1
    {
      var fails := (i: nat) => i < |labels| && Fails(labels[i]);
      var called, successes;
      called, successes, err := SlowStart.SlowStartBatch(|pods|, SlowStart.INITIAL_BATCH_SIZE, fails);
      reached := |called|;
      for i := 0 to |called|
        invariant |pods| == |old(pods)| == |labels|
        invariant forall k :: 0 <= k < |pods| ==>
                    pods[k] == Relabelled(old(pods)[k], protection, k < i && Writes(labels[k]))
      {
        if Writes(labels[i]) { pods := pods[i := Relabelled(pods[i], protection, true)]; }
      }
      assert forall i: nat :: i < reached ==> (fails(i) <==> Fails(labels[i]));
    }

    /** The status sync: labels follow unless a condition patch was refused. */
    method SyncNodeSetPodStatus(
      nodes: seq<NamedNode>, names: set<string>, patches: seq<Patch>, labels: seq<Labelling>, protection: bool)
      returns (err: bool)
      requires |patches| == |labels| == |pods| && NamesDistinct(nodes)
      requires forall i :: 0 <= i < |pods| ==> pods[i].slurmName in names
      modifies this
      ensures |pods| == |old(pods)|
      ensures Reached(patches) < |patches| && patches[Reached(patches)].Refused? ==> err
      ensures err ==> (Reached(patches) < |patches| && patches[Reached(patches)].Refused?)
                      || exists i :: 0 <= i < |labels| && Fails(labels[i])
      ensures forall i :: 0 <= i < |pods| ==> NonSlurm(pods[i].conditions) == NonSlurm(old(pods)[i].conditions)
      ensures !err ==> forall i :: 0 <= i < Reached(patches) && labels[i].Done? ==>
                FollowsNode(pods[i], nodes, protection)
      ensures !err ==> forall i :: Reached(patches) <= i < |pods| ==>
                pods[i] == Relabelled(old(pods)[i], protection, labels[i].Done?)
    {
      var total, counts, states := CalculateNodeStatus(nodes, names);
      ghost var was := pods;
      err := UpdateNodeSetPodConditions(states, patches);
      forall i | 0 <= i < |pods| ensures NonSlurm(pods[i].conditions) == NonSlurm(was[i].conditions) {
        RewriteKeepsOthers(was[i], states, nodes, names, i < Reached(patches));
      }
      if err { return; }
      ghost var reached;
      err, reached := UpdateNodeSetPodPDBLabels(protection, labels);
      if err { return; }
      forall i | 0 <= i < Reached(patches) && labels[i].Done?
        ensures FollowsNode(pods[i], nodes, protection)
      {
        LabelledFollows(was[i], states, nodes, names, protection);
      }
    }
  }

  /** A pod tells the truth about its node, or, without one, is not protected. */
  ghost predicate FollowsNode(p: PodStatus, nodes: seq<NamedNode>, protection: bool) {
    && (forall k :: 0 <= k < |nodes| && nodes[k].name == p.slurmName ==> Truthful(p, nodes[k].node.states, protection))
    && ((forall k :: 0 <= k < |nodes| ==> nodes[k].name != p.slurmName) ==> !p.protect)
  }

  lemma LabelledFollows(
    p: PodStatus, states: map<string, seq<Condition>>, nodes: seq<NamedNode>, names: set<string>, protection: bool)
    requires NamesDistinct(nodes) && StatesAre(states, nodes, names) && p.slurmName in names
    ensures FollowsNode(Relabelled(Rewritten(p, states, true), protection, true), nodes, protection)
  {
    forall k | 0 <= k < |nodes| && nodes[k].name == p.slurmName
      ensures Truthful(Relabelled(Rewritten(p, states, true), protection, true), nodes[k].node.states, protection)
    {
      RegisteredFollows(p, states, nodes, names, k, protection);
    }
    if forall k :: 0 <= k < |nodes| ==> nodes[k].name != p.slurmName {
      UnregisteredFollows(p, states, nodes, names);
    }
  }

  lemma RegisteredFollows(
    p: PodStatus, states: map<string, seq<Condition>>, nodes: seq<NamedNode>, names: set<string>, k: nat,
    protection: bool)
    requires NamesDistinct(nodes) && StatesAre(states, nodes, names) && p.slurmName in names
    requires k < |nodes| && nodes[k].name == p.slurmName
    ensures var after := Rewritten(p, states, true);
            && NonSlurm(after.conditions) == NonSlurm(p.conditions)
            && Truthful(after.(protect := IsNodeBusy(after.conditions) && protection), nodes[k].node.states, protection)
  {
    NodeStatesOf(nodes, k);
    TruthfulAfter(p, nodes[k].node, protection);
  }

  lemma UnregisteredFollows(
    p: PodStatus, states: map<string, seq<Condition>>, nodes: seq<NamedNode>, names: set<string>)
    requires StatesAre(states, nodes, names) && p.slurmName in names
    requires forall k :: 0 <= k < |nodes| ==> nodes[k].name != p.slurmName
    ensures var after := Rewritten(p, states, true);
            NonSlurm(after.conditions) == NonSlurm(p.conditions) && !IsNodeBusy(after.conditions)
  {
    NoneNamed(nodes, p.slurmName);
    UnregisteredNotBusy(p.conditions);
  }

  lemma RewriteKeepsOthers(
    p: PodStatus, states: map<string, seq<Condition>>, nodes: seq<NamedNode>, names: set<string>, stored: bool)
    requires NamesDistinct(nodes) && StatesAre(states, nodes, names) && p.slurmName in names
    ensures NonSlurm(Rewritten(p, states, stored).conditions) == NonSlurm(p.conditions)
  {
    if stored {
      if k :| 0 <= k < |nodes| && nodes[k].name == p.slurmName {
        RegisteredFollows(p, states, nodes, names, k, true);
      } else {
        UnregisteredFollows(p, states, nodes, names);
      }
    }
  }

  lemma UnregisteredNotBusy(conds: seq<Condition>)
    ensures NonSlurm(Updated(conds, [])) == NonSlurm(conds) && !IsNodeBusy(Updated(conds, []))
  {
    OthersUntouched(conds, []);
    assert ConditionsOf([], "") == [];
    ShowsIffReported(conds, [], "", ALLOCATED);
    ShowsIffReported(conds, [], "", MIXED);
    ShowsIffReported(conds, [], "", COMPLETING);
  }

  /** What the sync promises of a pod: unless work is hidden, it carries the label exactly when
      its node works and protection is on, and the two readings of drained agree. */
  ghost predicate Truthful(p: PodStatus, states: set<NodeState>, protection: bool) {
    && (!WorkHidden(states) ==> (p.protect <==> IsBusy(states) && protection))
    && (WorkHidden(states) ==> !p.protect)
    && (!WorkHidden(states) ==> IsNodeDrained(p.conditions) == IsDrained(states))
  }

  lemma TruthfulAfter(p: PodStatus, node: SlurmNode, protection: bool)
    ensures var after := Updated(p.conditions, NodeConditions(node));
            && NonSlurm(after) == NonSlurm(p.conditions)
            && Truthful(p.(conditions := after, protect := IsNodeBusy(after) && protection), node.states, protection)
  {
    ConditionsTruthfulIff(p.conditions, node.states, node.reason);
    OthersUntouched(p.conditions, NodeConditions(node));
  }

  // ---- Growth ----

  function CountSlurm(conds: seq<Condition>): nat {
    if conds == [] then 0 else
      CountSlurm(conds[..|conds| - 1]) + (if IsSlurm(conds[|conds| - 1].kind) then 1 else 0)
  }

  lemma OneMoreTime(c: nat, k: nat)
    ensures (c + 1) * k == c * k + k
  {
  }

  /** The filter multiplies: every Slurm condition met writes all those still present again. */
  lemma {:induction false} FilterMultiplies(conds: seq<Condition>, all: seq<Condition>, present: seq<Condition>)
    ensures |Filtered(conds, all, present)| ==
            |conds| - CountSlurm(conds) + CountSlurm(conds) * |StillPresent(all, present)|
  {
    if conds != [] {
      var n, k := |conds| - 1, |StillPresent(all, present)|;
      FilterMultiplies(conds[..n], all, present);
      OneMoreTime(CountSlurm(conds[..n]), k);
    }
  }
}
