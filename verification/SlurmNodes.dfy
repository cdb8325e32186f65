/** Slurm nodes as the operator sees them: a set of states and a reason. */
module SlurmNodes {

  datatype NodeState =
    // base states
    | ALLOCATED | DOWN | ERROR | FUTURE | IDLE | MIXED | UNKNOWN
    // flag states
    | COMPLETING | DRAIN | FAIL | INVALID | INVALIDREG | MAINTENANCE | NOTRESPONDING | UNDRAIN

  datatype SlurmNode = SlurmNode(states: set<NodeState>, reason: string)

  const NODE_REASON_PREFIX := "slurm-operator:"

  predicate HasPrefix(s: string, prefix: string) {
    |prefix| <= |s| && s[..|prefix|] == prefix
  }

  predicate Contains(s: string, part: string) {
    exists i :: 0 <= i <= |s| && HasPrefix(s[i..], part)
  }

  /** Busy is any state in which the node does work, prologue and epilogue included. */
  predicate IsBusy(states: set<NodeState>) {
    ALLOCATED in states || MIXED in states || COMPLETING in states
  }

  predicate IsDraining(states: set<NodeState>) {
    DRAIN in states && UNDRAIN !in states
  }

  predicate IsDrained(states: set<NodeState>) {
    IsDraining(states) && !IsBusy(states)
  }

  predicate IsReasonOurs(n: SlurmNode) {
    n.reason == "" || HasPrefix(n.reason, NODE_REASON_PREFIX)
  }

  predicate IsUnresponsive(n: SlurmNode) {
    DOWN in n.states && Contains(n.reason, "Not responding")
  }

  /** Drained by somebody else: DRAIN with a reason the operator did not write. */
  predicate IsExternalDrain(n: SlurmNode) {
    DRAIN in n.states && !IsReasonOurs(n)
  }

  /** What slurmctld makes of an accepted DRAIN or UNDRAIN update. */
  function ApplyDrain(n: SlurmNode, reason: string): SlurmNode {
    SlurmNode((n.states - {UNDRAIN}) + {DRAIN}, reason)
  }

  function ApplyUndrain(n: SlurmNode, reason: string): SlurmNode {
    SlurmNode(n.states - {DRAIN, UNDRAIN}, reason)
  }

  function Prefixed(reason: string): (r: string)
    ensures r == "" || HasPrefix(r, NODE_REASON_PREFIX)
    ensures reason != "" ==> r != ""
  {
    if reason == "" then "" else
      var r := NODE_REASON_PREFIX + " " + reason;
      assert r[..|NODE_REASON_PREFIX|] == NODE_REASON_PREFIX;
      r
  }

  // ---- What the texts are ----

  lemma PrefixedText(reason: string)
    ensures Prefixed(reason) == if reason == "" then "" else "slurm-operator: " + reason
  {
    assert "slurm-operator:" + " " == "slurm-operator: ";
  }

  /** A reason is ours if there is none, or it begins with the operator's name. */
  lemma OursIff(n: SlurmNode)
    ensures IsReasonOurs(n) <==> n.reason == "" || exists rest :: n.reason == "slurm-operator:" + rest
  {
    var p := "slurm-operator:";
    if HasPrefix(n.reason, p) { assert n.reason == p + n.reason[|p|..]; }
    if rest :| n.reason == p + rest { assert n.reason[..|p|] == p; }
  }

  /** A node is unresponsive if it is down and its reason says so anywhere. */
  lemma UnresponsiveIff(n: SlurmNode)
    ensures IsUnresponsive(n) <==>
            DOWN in n.states && exists before, after :: n.reason == before + "Not responding" + after
  {
    ContainsIff(n.reason, "Not responding");
  }

  lemma ContainsIff(s: string, part: string)
    ensures Contains(s, part) <==> exists before, after :: s == before + part + after
  {
    if Contains(s, part) {
      var i :| 0 <= i <= |s| && HasPrefix(s[i..], part);
      SplitAround(s, part, i);
    }
    if before, after :| s == before + part + after {
      assert s[|before|..] == part + after;
      assert s[|before|..][..|part|] == part;
    }
  }

  lemma SplitAround(s: string, part: string, i: nat)
    requires i <= |s| && HasPrefix(s[i..], part)
    ensures s == s[..i] + part + s[i..][|part|..]
  {
    assert s[i..] == part + s[i..][|part|..];
  }
}
