/**
 The guarantees of Safety and of what is built on it, each stated over all runs of a cluster
 or over those in which no handler goes on late, and proved where the cluster is safe.
 */
module Guarantees {
  import opened Commands
  import opened RaftTypes
  import opened Handlers
  import opened Clusters
  import opened Invariants
  import opened VoteRuns
  import opened Safety
  import opened Acknowledged
  import opened Replicas
  import opened Convergence

  /** The runs that a guarantee is about: all of them, or the timely ones. */
  datatype Scope = AllRuns | TimelyRuns

  ghost predicate InScope(cfg: Config, scope: Scope, run: seq<Cluster>) {
    if scope.AllRuns? then IsRun(cfg, run) else IsTimelyRun(cfg, run)
  }

  ghost predicate Reached(cfg: Config, scope: Scope, s: Cluster) {
    if scope.AllRuns? then Reachable(cfg, s) else TimelyReachable(cfg, s)
  }

  /** No run in scope has a handler go on late. */
  predicate ScopeIsSafe(cfg: Config, scope: Scope) {
    scope.TimelyRuns? || ResumeIsSafe(cfg)
  }

  // ----- The guarantees -----

  ghost predicate AppliedAgree(run: seq<Cluster>, i: nat, j: nat, a: Id, b: Id) {
    i < |run| && j < |run| && a in run[i].nodes && b in run[j].nodes ==>
      run[i].nodes[a].applied <= run[j].nodes[b].applied || run[j].nodes[b].applied <= run[i].nodes[a].applied
  }

  /** State Machine Safety. */
  ghost predicate MachinesAgree(cfg: Config, scope: Scope) {
    forall run, i: nat, j: nat, a, b :: InScope(cfg, scope, run) ==> AppliedAgree(run, i, j, a, b)
  }

  ghost predicate LeaderHolds(run: seq<Cluster>, i: nat, j: nat, a: Id, leader: Id) {
    i < |run| && j < |run| && a in run[i].nodes && leader in run[j].nodes && run[j].nodes[leader].role == Leader
    && run[i].nodes[a].currentTerm < run[j].nodes[leader].currentTerm ==>
      CommitInLog(run[i].nodes[a]) && CommittedLog(run[i].nodes[a]) <= run[j].nodes[leader].log
  }

  /** Leader Completeness. */
  ghost predicate LeadersComplete(cfg: Config, scope: Scope) {
    forall run, i: nat, j: nat, a, leader :: InScope(cfg, scope, run) ==> LeaderHolds(run, i, j, a, leader)
  }

  ghost predicate CommitStays(run: seq<Cluster>, i: nat, j: nat, v: Id) {
    i <= j < |run| && v in run[i].nodes && v in run[j].nodes ==>
      && CommitInLog(run[i].nodes[v]) && CommitInLog(run[j].nodes[v])
      && CommittedLog(run[i].nodes[v]) <= CommittedLog(run[j].nodes[v])
  }

  /** No committed entry is ever lost or replaced. */
  ghost predicate CommitsStay(cfg: Config, scope: Scope) {
    forall run, i: nat, j: nat, v :: InScope(cfg, scope, run) ==> CommitStays(run, i, j, v)
  }

  ghost predicate AppliedIsLog(s: Cluster, v: Id) {
    v in s.nodes ==>
      && -1 <= s.nodes[v].lastApplied <= s.nodes[v].commitIndex < |s.nodes[v].log|
      && s.nodes[v].applied == s.nodes[v].log[..s.nodes[v].lastApplied + 1]
  }

  /** What a node has applied is the beginning of its log. */
  ghost predicate LogsApplied(cfg: Config, scope: Scope) {
    forall s, v :: Reached(cfg, scope, s) ==> AppliedIsLog(s, v)
  }

  ghost predicate TableAgrees(run: seq<Cluster>, i: nat, j: nat, a: Id, b: Id, ra: seq<int>, rb: seq<int>) {
    i < |run| && j < |run| && a in run[i].nodes && b in run[j].nodes
    && run[i].nodes[a].lastApplied <= run[j].nodes[b].lastApplied
    && |ra| == |run[i].nodes[a].applied| && |rb| == |run[j].nodes[b].applied| ==>
      && |ra| <= |rb|
      && SameUpToClock(TableOf(run[i].nodes[a], ra), Replay(CommandsOf(run[j].nodes[b].applied)[..|ra|], rb[..|ra|]))
  }

  /** A table is, up to the clock, what any node further ahead had when it had applied as much. */
  ghost predicate ReplicasFollow(cfg: Config, scope: Scope) {
    forall run, i: nat, j: nat, a, b, ra, rb :: InScope(cfg, scope, run) ==> TableAgrees(run, i, j, a, b, ra, rb)
  }

  ghost predicate LogsMatchAt(run: seq<Cluster>, i: nat, j: nat, a: Id, b: Id, k: nat) {
    i <= j < |run| && a in run[i].nodes && b in run[j].nodes
    && k < |run[i].nodes[a].log| && k < |run[j].nodes[b].log|
    && run[i].nodes[a].log[k].term == run[j].nodes[b].log[k].term ==>
      run[i].nodes[a].log[..k + 1] == run[j].nodes[b].log[..k + 1]
  }

  /** Log Matching. */
  ghost predicate LogsMatch(cfg: Config, scope: Scope) {
    forall run, i: nat, j: nat, a, b, k: nat :: InScope(cfg, scope, run) ==> LogsMatchAt(run, i, j, a, b, k)
  }

  ghost predicate LeaderAppends(run: seq<Cluster>, i: nat, j: nat, v: Id) {
    i <= j < |run| && v in run[i].nodes && v in run[j].nodes && run[i].nodes[v].role == Leader
    && run[j].nodes[v].currentTerm == run[i].nodes[v].currentTerm ==>
      run[j].nodes[v].role == Leader && run[i].nodes[v].log <= run[j].nodes[v].log
  }

  /** Leader Append-Only. */
  ghost predicate LeadersAppend(cfg: Config, scope: Scope) {
    forall run, i: nat, j: nat, v :: InScope(cfg, scope, run) ==> LeaderAppends(run, i, j, v)
  }

  ghost predicate IndexInLog(cfg: Config, s: Cluster, p: Id, q: Id) {
    p in s.nodes && s.nodes[p].role == Leader && q in cfg.members && q != p ==>
      q in s.nodes[p].nextIndex && s.nodes[p].nextIndex[q] <= |s.nodes[p].log|
  }

  /** A leader's nextIndex stays within its log. */
  ghost predicate IndicesInLog(cfg: Config, scope: Scope) {
    forall s, p, q :: Reached(cfg, scope, s) ==> IndexInLog(cfg, s, p, q)
  }

  ghost predicate MatchSound(run: seq<Cluster>, j: nat, p: Id, q: Id, n: nat) {
    j < |run| && p in run[j].nodes && run[j].nodes[p].role == Leader
    && q in run[j].nodes[p].matchIndex && run[j].nodes[p].matchIndex[q] >= n ==>
      && n < |run[j].nodes[p].log|
      && StoredBefore(run, j, run[j].nodes[p].currentTerm, q, run[j].nodes[p].log[..n + 1])
  }

  /** At some moment up to j, q was in term t with x at the start of its log. */
  ghost predicate StoredBefore(run: seq<Cluster>, j: nat, t: nat, q: Id, x: Log)
    requires j < |run|
  {
    exists i: nat :: i <= j && StoredAt(run, i, t, q, x)
  }

  /** What matchIndex counts was stored in the leader's term. */
  ghost predicate MatchesSound(cfg: Config, scope: Scope) {
    forall run, j: nat, p, q, n: nat :: InScope(cfg, scope, run) ==> MatchSound(run, j, p, q, n)
  }

  /** Enough round trips for the logs at the start. */
  ghost predicate EnoughTrips(trips: seq<Cluster>, l: Id, q: Id)
    requires trips != [] && l in trips[0].nodes && q in trips[0].nodes
  {
    var x := trips[0].nodes[l].log;
    var y := trips[0].nodes[q].log;
    |trips| - 1 >= Needed(|x|, NextIndex(trips[0].nodes[l], q), CommonPrefix(x, y), |y|)
  }

  ghost predicate TripsConverge(cfg: Config, trips: seq<Cluster>, l: Id, q: Id)
    requires trips != []
  {
    RoundTrips(cfg, trips, l, q) && Paired(trips[0], l, q) ==>
      var s' := trips[|trips| - 1];
      && l in s'.nodes && q in s'.nodes && s'.nodes[l].log == trips[0].nodes[l].log
      && (s'.nodes[l].log <= s'.nodes[q].log && NextIndex(s'.nodes[l], q) == |s'.nodes[l].log|
          <==> EnoughTrips(trips, l, q))
  }

  /** Round trips bring followers in line, and exactly as many as needed. */
  ghost predicate LeadersConverge(cfg: Config, scope: Scope) {
    forall trips, l, q :: trips != [] && Reached(cfg, scope, trips[0]) ==> TripsConverge(cfg, trips, l, q)
  }

  // ----- They hold where nothing goes on late, and the scan is safe -----

  lemma ScopeTimely(cfg: Config, scope: Scope, run: seq<Cluster>)
    requires ValidConfig(cfg) && ScopeIsSafe(cfg, scope) && InScope(cfg, scope, run)
    ensures IsTimelyRun(cfg, run)
  {
    hide IsRun, IsTimelyRun;
    if scope.AllRuns? {
      SafeRunIsTimely(cfg, run);
    }
  }

  lemma ReachedTimely(cfg: Config, scope: Scope, s: Cluster)
    requires ValidConfig(cfg) && ScopeIsSafe(cfg, scope) && Reached(cfg, scope, s)
    ensures TimelyReachable(cfg, s)
  {
    hide Reachable, TimelyReachable;
    if scope.AllRuns? {
      SafeIsTimely(cfg, s);
    }
  }

  lemma MachinesAgreeWhenSafe(cfg: Config, scope: Scope)
    requires ValidConfig(cfg) && ScopeIsSafe(cfg, scope) && ScanIsSafe(cfg)
    ensures MachinesAgree(cfg, scope)
  {
    hide InScope, IsTimelyRun, ScopeIsSafe;
    forall run: seq<Cluster>, i: nat, j: nat, a: Id, b: Id | InScope(cfg, scope, run) ensures AppliedAgree(run, i, j, a, b) {
      ScopeTimely(cfg, scope, run);
      if i < |run| && j < |run| && a in run[i].nodes && b in run[j].nodes {
        StateMachineSafety(cfg, run, i, j, a, b);
      }
    }
  }

  lemma LeadersCompleteWhenSafe(cfg: Config, scope: Scope)
    requires ValidConfig(cfg) && ScopeIsSafe(cfg, scope) && ScanIsSafe(cfg)
    ensures LeadersComplete(cfg, scope)
  {
    hide CommitInLog, CommittedLog, InScope, IsTimelyRun, ScopeIsSafe;
    forall run: seq<Cluster>, i: nat, j: nat, a: Id, leader: Id | InScope(cfg, scope, run)
      ensures LeaderHolds(run, i, j, a, leader)
    {
      ScopeTimely(cfg, scope, run);
      if i < |run| && j < |run| && a in run[i].nodes && leader in run[j].nodes && run[j].nodes[leader].role == Leader
         && run[i].nodes[a].currentTerm < run[j].nodes[leader].currentTerm {
        LeaderCompleteness(cfg, run, i, j, a, leader);
      }
    }
  }

  lemma CommitsStayWhenSafe(cfg: Config, scope: Scope)
    requires ValidConfig(cfg) && ScopeIsSafe(cfg, scope) && ScanIsSafe(cfg)
    ensures CommitsStay(cfg, scope)
  {
    hide CommitInLog, CommittedLog, InScope, IsTimelyRun, ScopeIsSafe;
    forall run: seq<Cluster>, i: nat, j: nat, v: Id | InScope(cfg, scope, run) ensures CommitStays(run, i, j, v) {
      ScopeTimely(cfg, scope, run);
      if i <= j < |run| && v in run[i].nodes {
        CommittedNeverLost(cfg, run, i, j, v);
      }
    }
  }

  lemma LogsAppliedWhenSafe(cfg: Config, scope: Scope)
    requires ValidConfig(cfg) && ScopeIsSafe(cfg, scope) && ScanIsSafe(cfg)
    ensures LogsApplied(cfg, scope)
  {
    hide Reached, TimelyReachable, ScopeIsSafe;
    forall s: Cluster, v: Id | Reached(cfg, scope, s) ensures AppliedIsLog(s, v) {
      ReachedTimely(cfg, scope, s);
      if v in s.nodes {
        AppliedInOrder(cfg, s, v);
      }
    }
  }

  lemma ReplicasFollowWhenSafe(cfg: Config, scope: Scope)
    requires ValidConfig(cfg) && ScopeIsSafe(cfg, scope) && ScanIsSafe(cfg)
    ensures ReplicasFollow(cfg, scope)
  {
    hide InScope, IsTimelyRun, ScopeIsSafe, SameUpToClock, Replay, TableOf;
    forall run: seq<Cluster>, i: nat, j: nat, a: Id, b: Id, ra: seq<int>, rb: seq<int> | InScope(cfg, scope, run)
      ensures TableAgrees(run, i, j, a, b, ra, rb)
    {
      ScopeTimely(cfg, scope, run);
      if i < |run| && j < |run| && a in run[i].nodes && b in run[j].nodes
         && run[i].nodes[a].lastApplied <= run[j].nodes[b].lastApplied
         && |ra| == |run[i].nodes[a].applied| && |rb| == |run[j].nodes[b].applied| {
        TablesAgree(cfg, run, i, j, a, b, ra, rb);
      }
    }
  }

  lemma LogsMatchWhenSafe(cfg: Config, scope: Scope)
    requires ValidConfig(cfg) && ScopeIsSafe(cfg, scope)
    ensures LogsMatch(cfg, scope)
  {
    hide InScope, IsTimelyRun, ScopeIsSafe;
    forall run: seq<Cluster>, i: nat, j: nat, a: Id, b: Id, k: nat | InScope(cfg, scope, run)
      ensures LogsMatchAt(run, i, j, a, b, k)
    {
      ScopeTimely(cfg, scope, run);
      if i <= j < |run| && a in run[i].nodes && b in run[j].nodes
         && k < |run[i].nodes[a].log| && k < |run[j].nodes[b].log|
         && run[i].nodes[a].log[k].term == run[j].nodes[b].log[k].term {
        LogMatching(cfg, run, i, j, a, b, k);
      }
    }
  }

  lemma LeadersAppendWhenSafe(cfg: Config, scope: Scope)
    requires ValidConfig(cfg) && ScopeIsSafe(cfg, scope)
    ensures LeadersAppend(cfg, scope)
  {
    hide InScope, IsTimelyRun, ScopeIsSafe;
    forall run: seq<Cluster>, i: nat, j: nat, v: Id | InScope(cfg, scope, run) ensures LeaderAppends(run, i, j, v) {
      ScopeTimely(cfg, scope, run);
      if i <= j < |run| && v in run[i].nodes && v in run[j].nodes && run[i].nodes[v].role == Leader
         && run[j].nodes[v].currentTerm == run[i].nodes[v].currentTerm {
        LeaderAppendOnly(cfg, run, i, j, v);
      }
    }
  }

  lemma IndicesInLogWhenSafe(cfg: Config, scope: Scope)
    requires ValidConfig(cfg) && ScopeIsSafe(cfg, scope)
    ensures IndicesInLog(cfg, scope)
  {
    hide Reached, TimelyReachable, ScopeIsSafe;
    forall s: Cluster, p: Id, q: Id | Reached(cfg, scope, s) ensures IndexInLog(cfg, s, p, q) {
      ReachedTimely(cfg, scope, s);
      if p in s.nodes && s.nodes[p].role == Leader && q in cfg.members && q != p {
        NextIndexInLog(cfg, s, p, q);
      }
    }
  }

  lemma MatchesSoundWhenSafe(cfg: Config, scope: Scope)
    requires ValidConfig(cfg) && ScopeIsSafe(cfg, scope)
    ensures MatchesSound(cfg, scope)
  {
    hide InScope, IsTimelyRun, ScopeIsSafe, StoredAt;
    forall run: seq<Cluster>, j: nat, p: Id, q: Id, n: nat | InScope(cfg, scope, run) ensures MatchSound(run, j, p, q, n) {
      ScopeTimely(cfg, scope, run);
      if j < |run| && p in run[j].nodes && run[j].nodes[p].role == Leader
         && q in run[j].nodes[p].matchIndex && run[j].nodes[p].matchIndex[q] >= n {
        var i := MatchIndexSound(cfg, run, j, p, q, n);
      }
    }
  }

  lemma LeadersConvergeWhenSafe(cfg: Config, scope: Scope)
    requires ValidConfig(cfg) && ScopeIsSafe(cfg, scope)
    ensures LeadersConverge(cfg, scope)
  {
    hide Reached, TimelyReachable, ScopeIsSafe, RoundTrips;
    forall trips: seq<Cluster>, l: Id, q: Id | trips != [] && Reached(cfg, scope, trips[0])
      ensures TripsConverge(cfg, trips, l, q)
    {
      ReachedTimely(cfg, scope, trips[0]);
      if RoundTrips(cfg, trips, l, q) && Paired(trips[0], l, q) {
        LeaderCatchesUp(cfg, trips, l, q);
      }
    }
  }
}
