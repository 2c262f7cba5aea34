/**
 What the replicated log is for: the tables that the nodes build from it agree.
 */
module Replicas {
  import opened Commands
  import opened RaftTypes
  import opened Clusters
  import opened Invariants
  import opened Runs
  import opened Safety

  /** The table of a node whose clock read `readings[i]` when it applied entry i. */
  function TableOf(n: Node, readings: seq<int>): Table
    requires |readings| == |n.applied|
  {
    Replay(CommandsOf(n.applied), readings)
  }

  lemma AppliedLength(cfg: Config, run: seq<Cluster>, i: nat, v: Id)
    requires ValidConfig(cfg) && ScanIsSafe(cfg) && IsTimelyRun(cfg, run) && i < |run| && v in run[i].nodes
    ensures |run[i].nodes[v].applied| == run[i].nodes[v].lastApplied + 1
  {
    hide Committing;
    RunCommittingAt(cfg, run, i);
    IndicesAreLengths(cfg, run[i], v);
  }

  /** A table is, up to the local clock, what any other node had when it had applied as much. */
  lemma TablesAgree(cfg: Config, run: seq<Cluster>, i: nat, j: nat, a: Id, b: Id, ra: seq<int>, rb: seq<int>)
    requires ValidConfig(cfg) && ScanIsSafe(cfg) && IsTimelyRun(cfg, run) && i < |run| && j < |run|
    requires a in run[i].nodes && b in run[j].nodes
    requires run[i].nodes[a].lastApplied <= run[j].nodes[b].lastApplied
    requires |ra| == |run[i].nodes[a].applied| && |rb| == |run[j].nodes[b].applied|
    ensures |ra| <= |rb|
    ensures SameUpToClock(TableOf(run[i].nodes[a], ra), Replay(CommandsOf(run[j].nodes[b].applied)[..|ra|], rb[..|ra|]))
  {
    hide *;
    AppliedLength(cfg, run, i, a);
    AppliedLength(cfg, run, j, b);
    StateMachineSafety(cfg, run, i, j, a, b);
    LongerOfComparable(run[i].nodes[a].applied, run[j].nodes[b].applied);
    CommandsOfPrefix(run[i].nodes[a].applied, run[j].nodes[b].applied);
    ReplaySameUpToClock(CommandsOf(run[i].nodes[a].applied), ra, rb[..|ra|]);
    TableIs(run[i].nodes[a], ra);
  }

  lemma CommandsOfPrefix(x: Log, y: Log)
    requires x <= y
    ensures CommandsOf(x) == CommandsOf(y)[..|x|]
  {
  }

  lemma TableIs(n: Node, readings: seq<int>)
    requires |readings| == |n.applied|
    ensures TableOf(n, readings) == Replay(CommandsOf(n.applied), readings)
  {
  }

  /** Two nodes that have applied the same number of entries hold the same keys and, but
      for lastSeen, the same records, whatever their clocks read. */
  lemma ReplicasAgree(cfg: Config, run: seq<Cluster>, i: nat, j: nat, a: Id, b: Id, ra: seq<int>, rb: seq<int>)
    requires ValidConfig(cfg) && ScanIsSafe(cfg) && IsTimelyRun(cfg, run) && i < |run| && j < |run|
    requires a in run[i].nodes && b in run[j].nodes
    requires run[i].nodes[a].lastApplied == run[j].nodes[b].lastApplied
    requires |ra| == |run[i].nodes[a].applied| && |rb| == |run[j].nodes[b].applied|
    ensures TableOf(run[i].nodes[a], ra).Keys == TableOf(run[j].nodes[b], rb).Keys
    ensures SameUpToClock(TableOf(run[i].nodes[a], ra), TableOf(run[j].nodes[b], rb))
  {
    hide IsTimelyRun, ScanIsSafe, ApplyCommand, Replay;
    TablesAgree(cfg, run, i, j, a, b, ra, rb);
    AppliedLength(cfg, run, i, a);
    AppliedLength(cfg, run, j, b);
    assert rb[..|ra|] == rb && CommandsOf(run[j].nodes[b].applied)[..|ra|] == CommandsOf(run[j].nodes[b].applied);
  }
}
