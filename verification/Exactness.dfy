/**
 For which clusters the guarantees hold, exactly: each holds of all runs, or of the timely
 ones, if and only if the commit scan is safe and no handler goes on late. For the code as
 written that means at most four members while no handler goes on late, and at most two
 otherwise.
 */
module Exactness {
  import opened Commands
  import opened RaftTypes
  import opened Clusters
  import opened Invariants
  import opened VoteRuns
  import opened Safety
  import opened Convergence
  import opened Guarantees
  import opened Phases
  import opened LargeClusters
  import opened Divergence
  import opened LateResume
  import opened Stuck

  // ----- From states to runs -----

  lemma RunTo(cfg: Config, scope: Scope, s: Cluster) returns (run: seq<Cluster>)
    requires Reached(cfg, scope, s)
    ensures InScope(cfg, scope, run) && run != [] && run[|run| - 1] == s
  {
    if scope.AllRuns? {
      run :| IsRun(cfg, run) && run[|run| - 1] == s;
    } else {
      run :| IsTimelyRun(cfg, run) && run[|run| - 1] == s;
    }
  }

  lemma RunPast(cfg: Config, scope: Scope, s: Cluster, a: Action) returns (run: seq<Cluster>)
    requires Reached(cfg, scope, s) && Enabled(s, a) && (scope.TimelyRuns? ==> InTime(cfg, s, a))
    ensures InScope(cfg, scope, run) && |run| >= 2 && run[|run| - 2] == s && run[|run| - 1] == Next(cfg, s, a)
  {
    var first := RunTo(cfg, scope, s);
    run := first + [Next(cfg, s, a)];
    hide Next, Enabled, InTime;
    if scope.AllRuns? {
      forall i: nat | i + 1 < |run| ensures StepAt(cfg, run, i) {
        if i + 1 < |first| {
          assert StepAt(cfg, first, i);
        }
      }
    } else {
      forall i: nat | i + 1 < |run| ensures TimelyStepAt(cfg, run, i) {
        if i + 1 < |first| {
          assert TimelyStepAt(cfg, first, i);
        }
      }
    }
  }

  /** A timely run is in both scopes. */
  lemma TimelyReached(cfg: Config, scope: Scope, s: Cluster)
    requires TimelyReachable(cfg, s)
    ensures Reached(cfg, scope, s)
  {
    hide Reachable, TimelyReachable;
    TimelyIsReachable(cfg, s);
  }

  // ----- What refutes each guarantee -----

  /** In one state, two nodes have applied what does not agree. */
  lemma NotAgreed(cfg: Config, scope: Scope, s: Cluster, a: Id, b: Id, x: Log, y: Log)
    requires Reached(cfg, scope, s) && a in s.nodes && b in s.nodes && s.nodes[a].applied == x && s.nodes[b].applied == y
    requires !(x <= y) && !(y <= x)
    ensures !MachinesAgree(cfg, scope)
  {
    hide Reached, InScope;
    var run := RunTo(cfg, scope, s);
    assert !AppliedAgree(run, |run| - 1, |run| - 1, a, b);
  }

  lemma NotComplete(cfg: Config, scope: Scope, s: Cluster, a: Id, leader: Id)
    requires Reached(cfg, scope, s) && a in s.nodes && leader in s.nodes && s.nodes[leader].role == Leader
    requires s.nodes[a].currentTerm < s.nodes[leader].currentTerm && CommitInLog(s.nodes[a])
    requires !(CommittedLog(s.nodes[a]) <= s.nodes[leader].log)
    ensures !LeadersComplete(cfg, scope)
  {
    hide Reached, InScope, CommitInLog, CommittedLog;
    var run := RunTo(cfg, scope, s);
    assert !LeaderHolds(run, |run| - 1, |run| - 1, a, leader);
  }

  lemma NotStaying(cfg: Config, scope: Scope, s: Cluster, action: Action, v: Id)
    requires Reached(cfg, scope, s) && Enabled(s, action) && (scope.TimelyRuns? ==> InTime(cfg, s, action))
    requires v in s.nodes && v in Next(cfg, s, action).nodes
    requires CommitInLog(s.nodes[v]) && CommitInLog(Next(cfg, s, action).nodes[v])
    requires !(CommittedLog(s.nodes[v]) <= CommittedLog(Next(cfg, s, action).nodes[v]))
    ensures !CommitsStay(cfg, scope)
  {
    hide Reached, InScope, Next, Enabled, InTime, CommitInLog, CommittedLog;
    var run := RunPast(cfg, scope, s, action);
    assert !CommitStays(run, |run| - 2, |run| - 1, v);
  }

  lemma NotApplied(cfg: Config, scope: Scope, s: Cluster, v: Id)
    requires Reached(cfg, scope, s) && v in s.nodes && !AppliedIsLog(s, v)
    ensures !LogsApplied(cfg, scope)
  {
    hide Reached;
  }

  /** The last command written to a key gives its status. */
  lemma LastText(cmds: seq<Command>, readings: seq<int>, key: string, text: string)
    requires |cmds| == |readings| > 0 && cmds[|cmds| - 1] == LegacySet(key, text)
    ensures key in Replay(cmds, readings) && Replay(cmds, readings)[key].status == text
  {
  }

  lemma NotFollowing(cfg: Config, scope: Scope, s: Cluster, a: Id, b: Id, key: string, x: string, y: string)
    requires Reached(cfg, scope, s) && a in s.nodes && b in s.nodes
    requires s.nodes[a].lastApplied <= s.nodes[b].lastApplied && 0 < |s.nodes[a].applied| <= |s.nodes[b].applied|
    requires var n := |s.nodes[a].applied| - 1;
             s.nodes[a].applied[n].command == LegacySet(key, x) && s.nodes[b].applied[n].command == LegacySet(key, y)
    requires x != y
    ensures !ReplicasFollow(cfg, scope)
  {
    hide Reached, InScope;
    var run := RunTo(cfg, scope, s);
    var n := |s.nodes[a].applied|;
    var ra := seq(n, _ => 0);
    var rb := seq(|s.nodes[b].applied|, _ => 0);
    LastText(CommandsOf(s.nodes[a].applied), ra, key, x);
    LastText(CommandsOf(s.nodes[b].applied)[..n], rb[..n], key, y);
    hide Replay;
    assert !TableAgrees(run, |run| - 1, |run| - 1, a, b, ra, rb);
  }

  lemma NotAppending(cfg: Config, scope: Scope, s: Cluster, action: Action, v: Id)
    requires Reached(cfg, scope, s) && Enabled(s, action) && (scope.TimelyRuns? ==> InTime(cfg, s, action))
    requires v in s.nodes && v in Next(cfg, s, action).nodes
    requires s.nodes[v].role == Leader && Next(cfg, s, action).nodes[v].currentTerm == s.nodes[v].currentTerm
    requires !(s.nodes[v].log <= Next(cfg, s, action).nodes[v].log)
    ensures !LeadersAppend(cfg, scope)
  {
    hide Reached, InScope, Next, Enabled, InTime;
    var run := RunPast(cfg, scope, s, action);
    assert !LeaderAppends(run, |run| - 2, |run| - 1, v);
  }

  lemma NotMatching(cfg: Config, scope: Scope, s: Cluster, a: Id, b: Id, k: nat)
    requires Reached(cfg, scope, s) && a in s.nodes && b in s.nodes
    requires k < |s.nodes[a].log| && k < |s.nodes[b].log| && s.nodes[a].log[k].term == s.nodes[b].log[k].term
    requires s.nodes[a].log[..k + 1] != s.nodes[b].log[..k + 1]
    ensures !LogsMatch(cfg, scope)
  {
    hide Reached, InScope;
    var run := RunTo(cfg, scope, s);
    assert !LogsMatchAt(run, |run| - 1, |run| - 1, a, b, k);
  }

  lemma NotInLog(cfg: Config, scope: Scope, s: Cluster, p: Id, q: Id)
    requires Reached(cfg, scope, s) && p in s.nodes && s.nodes[p].role == Leader && q in cfg.members - {p}
    requires q in s.nodes[p].nextIndex && s.nodes[p].nextIndex[q] > |s.nodes[p].log|
    requires q in s.nodes[p].matchIndex && s.nodes[p].matchIndex[q] >= |s.nodes[p].log|
    ensures !IndicesInLog(cfg, scope) && !MatchesSound(cfg, scope)
  {
    hide Reached, InScope, StoredBefore;
    assert !IndexInLog(cfg, s, p, q);
    var run := RunTo(cfg, scope, s);
    assert !MatchSound(run, |run| - 1, p, q, |s.nodes[p].log|);
  }

  // ----- The failures that a scan without a role check brings -----

  lemma StolenIs(n: Node, t: nat)
    requires Has(n, t, Stolen(), 2)
    ensures CommitInLog(n) && CommittedLog(n) == Stolen() && n.applied == Stolen() && n.currentTerm == t
    ensures n.lastApplied == 2
  {
  }

  lemma KeptIs()
    ensures !(Stolen() <= Kept()) && !(Kept() <= Stolen()) && Kept()[..4] == Kept() && |Kept()| == 4
    ensures Kept()[..4] != Stolen() + [E(6)] && |Stolen()| == 3
    ensures Stolen()[2].command == LegacySet("worker", "busy") && Kept()[2].command == LegacySet("worker", "idle")
  {
    assert Stolen()[1] != Kept()[1];
    assert (Stolen() + [E(6)])[1] == Stolen()[1];
  }

  lemma UnsafeScan(cfg: Config, scope: Scope)
    requires ValidConfig(cfg) && !ScanIsSafe(cfg)
    ensures !MachinesAgree(cfg, scope) && !LeadersComplete(cfg, scope) && !ReplicasFollow(cfg, scope)
  {
    hide MachinesAgree, LeadersComplete, ReplicasFollow, TimelyReachable, Reached, Stolen, Kept;
    var s, f, g := CommitsDiverge(cfg);
    TimelyReached(cfg, scope, s);
    KeptIs();
    StolenIs(s.nodes[f], 5);
    NotAgreed(cfg, scope, s, f, g, Stolen(), Kept());
    NotComplete(cfg, scope, s, f, g);
    NotFollowing(cfg, scope, s, f, g, "worker", "busy", "idle");
  }

  lemma UnsafeScanOverwrites(cfg: Config, scope: Scope)
    requires ValidConfig(cfg) && !ScanIsSafe(cfg)
    ensures !CommitsStay(cfg, scope) && !LogsApplied(cfg, scope)
  {
    hide CommitsStay, LogsApplied, TimelyReachable, Reached, Next, Enabled, InTime;
    var s, action, s', f := CommitIsOverwritten(cfg);
    TimelyReached(cfg, scope, s);
    TimelyReached(cfg, scope, s');
    KeptIs();
    StolenIs(s.nodes[f], 6);
    assert CommitInLog(s'.nodes[f]) && CommittedLog(s'.nodes[f]) == Kept();
    NotStaying(cfg, scope, s, action, f);
    NotApplied(cfg, scope, s', f);
  }

  // ----- The failures that a late resume brings -----

  lemma AppliedIs(n: Node, t: nat)
    requires Has(n, t, Applied(), 0)
    ensures CommitInLog(n) && CommittedLog(n) == Applied() && n.applied == Applied() && n.currentTerm == t
    ensures n.commitIndex == n.lastApplied == 0 && n.log == Applied()
  {
  }

  lemma GoneIs()
    ensures !(Applied() <= Gone()) && !(Gone() <= Applied()) && Gone()[..1] == Gone() && |Gone()| == |Applied()| == 1
    ensures Applied()[0].command == LegacySet("worker", "busy") && Gone()[0].command == LegacySet("worker", "idle")
  {
    assert Applied()[0] != Gone()[0];
  }

  lemma LostHere(n: Node, n': Node)
    requires Has(n, 5, Applied(), 0) && n' == n.(log := Gone())
    ensures CommitInLog(n') && CommittedLog(n') == Gone() && n'.currentTerm == 5 && n'.role == n.role
    ensures n'.applied == Applied() && n'.lastApplied == 0
  {
  }

  /** What the brink and the state after it say of a and c. */
  lemma BrinkLost(cfg: Config, s: Cluster, s': Cluster, a: Id, b: Id, c: Id)
    requires Trio(cfg, a, b, c) && Brink(cfg, s, a, b, c) && Resumed(s, s', a)
    ensures a in s.nodes && a in s'.nodes && c in s'.nodes
    ensures Has(s.nodes[a], 5, Applied(), 0) && s.nodes[a].role == Leader && s'.nodes[a] == s.nodes[a].(log := Gone())
    ensures Has(s'.nodes[c], 4, Applied(), 0)
  {
    hide Alive;
  }

  lemma UnsafeResume(cfg: Config)
    requires ValidConfig(cfg) && !ResumeIsSafe(cfg)
    ensures !LeadersComplete(cfg, AllRuns) && !CommitsStay(cfg, AllRuns) && !LogsApplied(cfg, AllRuns)
    ensures !LeadersAppend(cfg, AllRuns)
  {
    hide LeadersComplete, CommitsStay, LogsApplied, LeadersAppend, Reachable, Next, Enabled, Brink, Resumed;
    var s, action, s', a, b, c := LeaderLosesEntry(cfg);
    BrinkLost(cfg, s, s', a, b, c);
    GoneIs();
    AppliedIs(s.nodes[a], 5);
    AppliedIs(s'.nodes[c], 4);
    LostHere(s.nodes[a], s'.nodes[a]);
    hide CommitInLog, CommittedLog;
    NotComplete(cfg, AllRuns, s', c, a);
    NotStaying(cfg, AllRuns, s, action, a);
    NotAppending(cfg, AllRuns, s, action, a);
    NotApplied(cfg, AllRuns, s', a);
  }

  lemma UnsafeResumeDiverges(cfg: Config)
    requires ValidConfig(cfg) && !ResumeIsSafe(cfg)
    ensures !MachinesAgree(cfg, AllRuns) && !ReplicasFollow(cfg, AllRuns) && !LogsMatch(cfg, AllRuns)
  {
    hide MachinesAgree, ReplicasFollow, LogsMatch, Reachable;
    var s, a, b := BAppliesGone(cfg);
    GoneIs();
    NotAgreed(cfg, AllRuns, s, a, b, Applied(), Gone());
    NotFollowing(cfg, AllRuns, s, a, b, "worker", "busy", "idle");
    var s', a', c := LogsFork(cfg);
    LongerIs();
    NotMatching(cfg, AllRuns, s', a', c, 1);
  }

  lemma UnsafeResumeIndices(cfg: Config)
    requires ValidConfig(cfg) && !ResumeIsSafe(cfg)
    ensures !IndicesInLog(cfg, AllRuns) && !MatchesSound(cfg, AllRuns) && !LeadersConverge(cfg, AllRuns)
  {
    hide IndicesInLog, MatchesSound, Reachable, RoundTrips, TripsConverge;
    var s, a, c := IndicesPastLog(cfg);
    NotInLog(cfg, AllRuns, s, a, c);
    var trips, l, q := NeverInLine(cfg, 3);
    OutOfLineStays(cfg, trips, l, q);
  }

  lemma OutOfLineStays(cfg: Config, trips: seq<Cluster>, l: Id, q: Id)
    requires |trips| == 4 && RoundTrips(cfg, trips, l, q)
    requires Paired(trips[0], l, q) && OutOfLine(trips[0], l, q) && OutOfLine(trips[3], l, q)
    ensures !TripsConverge(cfg, trips, l, q)
  {
    hide RoundTrips, CommonPrefix;
    assert Needed(2, 2, 0, 2) == 3;
    assert EnoughTrips(trips, l, q);
    if trips[3].nodes[l].log == trips[0].nodes[l].log {
      assert !(trips[0].nodes[l].log <= trips[3].nodes[q].log);
    }
  }

  // ----- Exactly when -----

  /** The guarantees about committed and applied entries. */
  ghost predicate CommitsSafe(cfg: Config, scope: Scope) {
    && MachinesAgree(cfg, scope) && LeadersComplete(cfg, scope) && CommitsStay(cfg, scope) && LogsApplied(cfg, scope)
    && ReplicasFollow(cfg, scope)
  }

  /** None of them holds. */
  ghost predicate CommitsUnsafe(cfg: Config, scope: Scope) {
    && !MachinesAgree(cfg, scope) && !LeadersComplete(cfg, scope) && !CommitsStay(cfg, scope) && !LogsApplied(cfg, scope)
    && !ReplicasFollow(cfg, scope)
  }

  /** The guarantees about logs and the leader's indices. */
  ghost predicate LogsSafe(cfg: Config, scope: Scope) {
    && LogsMatch(cfg, scope) && LeadersAppend(cfg, scope)
    && IndicesInLog(cfg, scope) && MatchesSound(cfg, scope) && LeadersConverge(cfg, scope)
  }

  ghost predicate LogsUnsafe(cfg: Config, scope: Scope) {
    && !LogsMatch(cfg, scope) && !LeadersAppend(cfg, scope)
    && !IndicesInLog(cfg, scope) && !MatchesSound(cfg, scope) && !LeadersConverge(cfg, scope)
  }

  /** State Machine Safety, Leader Completeness, that no committed entry is lost, that what is
      applied is the beginning of the log, and that tables follow one another: all of them hold
      of a cluster if its scan is safe and no handler goes on late, and otherwise none. */
  lemma SafeExactlyWhen(cfg: Config, scope: Scope)
    requires ValidConfig(cfg)
    ensures ScopeIsSafe(cfg, scope) && ScanIsSafe(cfg) ==> CommitsSafe(cfg, scope)
    ensures !(ScopeIsSafe(cfg, scope) && ScanIsSafe(cfg)) ==> CommitsUnsafe(cfg, scope)
  {
    hide MachinesAgree, LeadersComplete, CommitsStay, LogsApplied, ReplicasFollow, ResumeIsSafe, ScanIsSafe;
    if !ScopeIsSafe(cfg, scope) {
      UnsafeResume(cfg);
      UnsafeResumeDiverges(cfg);
    } else if !ScanIsSafe(cfg) {
      UnsafeScan(cfg, scope);
      UnsafeScanOverwrites(cfg, scope);
    } else {
      MachinesAgreeWhenSafe(cfg, scope);
      LeadersCompleteWhenSafe(cfg, scope);
      CommitsStayWhenSafe(cfg, scope);
      LogsAppliedWhenSafe(cfg, scope);
      ReplicasFollowWhenSafe(cfg, scope);
    }
  }

  /** Log Matching, Leader Append-Only, that the leader's indices are sound, and that round
      trips bring followers in line, do not depend on the scan. */
  lemma LogsSafeExactlyWhen(cfg: Config, scope: Scope)
    requires ValidConfig(cfg)
    ensures ScopeIsSafe(cfg, scope) ==> LogsSafe(cfg, scope)
    ensures !ScopeIsSafe(cfg, scope) ==> LogsUnsafe(cfg, scope)
  {
    hide LogsMatch, LeadersAppend, IndicesInLog, MatchesSound, LeadersConverge, ResumeIsSafe;
    if ScopeIsSafe(cfg, scope) {
      LogsMatchWhenSafe(cfg, scope);
      LeadersAppendWhenSafe(cfg, scope);
      IndicesInLogWhenSafe(cfg, scope);
      MatchesSoundWhenSafe(cfg, scope);
      LeadersConvergeWhenSafe(cfg, scope);
    } else {
      UnsafeResume(cfg);
      UnsafeResumeDiverges(cfg);
      UnsafeResumeIndices(cfg);
    }
  }

  /** The code as written. While no handler goes on late, clusters of up to four members have
      all the guarantees, and larger ones those about logs only. Over all runs, clusters of one
      or two members have all of them, and larger ones none. */
  lemma AsWritten(cfg: Config)
    requires ValidConfig(cfg) && !cfg.leaderOnlyScan && !cfg.rechecksTerm
    ensures LogsSafe(cfg, TimelyRuns)
    ensures |cfg.members| <= 4 ==> CommitsSafe(cfg, TimelyRuns)
    ensures |cfg.members| > 4 ==> CommitsUnsafe(cfg, TimelyRuns)
    ensures |cfg.members| <= 2 ==> CommitsSafe(cfg, AllRuns) && LogsSafe(cfg, AllRuns)
    ensures |cfg.members| > 2 ==> CommitsUnsafe(cfg, AllRuns) && LogsUnsafe(cfg, AllRuns)
  {
    hide CommitsSafe, CommitsUnsafe, LogsSafe, LogsUnsafe;
    SafeExactlyWhen(cfg, TimelyRuns);
    LogsSafeExactlyWhen(cfg, TimelyRuns);
    SafeExactlyWhen(cfg, AllRuns);
    LogsSafeExactlyWhen(cfg, AllRuns);
  }

  // ----- One resumed handler -----

  /** Whatever waits in the gap goes on without losing a committed entry of its node. */
  ghost predicate ResumeKeepsCommits(cfg: Config, s: Cluster, p: Paused) {
    p in s.parkedAppends && p.req.to in s.nodes && CommitInLog(s.nodes[p.req.to]) ==>
      && Enabled(s, ResumeAppend(p)) && p.req.to in Next(cfg, s, ResumeAppend(p)).nodes
      && CommitInLog(Next(cfg, s, ResumeAppend(p)).nodes[p.req.to])
      && CommittedLog(s.nodes[p.req.to]) <= CommittedLog(Next(cfg, s, ResumeAppend(p)).nodes[p.req.to])
  }

  ghost predicate ResumesKeepCommits(cfg: Config) {
    forall s, p :: Reachable(cfg, s) ==> ResumeKeepsCommits(cfg, s, p)
  }

  lemma NothingToResume(cfg: Config)
    requires ValidConfig(cfg) && |cfg.members| <= 2
    ensures ResumesKeepCommits(cfg)
  {
    hide IsRun, Next, Enabled, CommitInLog, CommittedLog;
    forall s: Cluster, p: Paused | Reachable(cfg, s) ensures ResumeKeepsCommits(cfg, s, p) {
      var run := RunTo(cfg, AllRuns, s);
      RunNoneWaits(cfg, run, |run| - 1);
    }
  }

  lemma ResumeLoses(cfg: Config)
    requires ValidConfig(cfg) && |cfg.members| >= 3 && !cfg.rechecksTerm
    ensures !ResumesKeepCommits(cfg)
  {
    hide Reachable, Next, Enabled;
    var s, p := LateResumeLosesCommitted(cfg);
    hide CommitInLog, CommittedLog;
    assert !ResumeKeepsCommits(cfg, s, p);
  }

  /** A reachable state in which a waiting handler, going on in a later term than its
      request's, replaces an entry that its node has committed and applied. */
  lemma LateResumeLosesCommitted(cfg: Config) returns (s: Cluster, p: Paused)
    requires |cfg.members| >= 3 && !cfg.rechecksTerm
    ensures Reachable(cfg, s) && p in s.parkedAppends && p.req.to in s.nodes && Enabled(s, ResumeAppend(p))
    ensures p.req.term < s.nodes[p.req.to].currentTerm && p.req.to in Next(cfg, s, ResumeAppend(p)).nodes
    ensures
      var n := s.nodes[p.req.to];
      var n' := Next(cfg, s, ResumeAppend(p)).nodes[p.req.to];
      && CommitInLog(n) && CommitInLog(n') && n.applied == CommittedLog(n) == n'.applied
      && !(CommittedLog(n) <= CommittedLog(n'))
  {
    hide Reachable, Next, Enabled, Brink, Resumed, OneWaits;
    var action, s', a, b, c;
    s, action, s', a, b, c := LeaderLosesEntry(cfg);
    p := Handler(a, b);
    BrinkLost(cfg, s, s', a, b, c);
    HandlerIs(cfg, s, a, b, c);
    GoneIs();
    AppliedIs(s.nodes[a], 5);
    LostHere(s.nodes[a], s'.nodes[a]);
  }

  lemma HandlerIs(cfg: Config, s: Cluster, a: Id, b: Id, c: Id)
    requires Brink(cfg, s, a, b, c)
    ensures Handler(a, b) in s.parkedAppends && Handler(a, b).req.to == a && Handler(a, b).req.term == 2
  {
    hide Alive;
  }

  /** Without a second look at the term, a resumed onAppendEntries never loses a committed
      entry if and only if there are at most two members. */
  lemma ResumeExactlyWhen(cfg: Config)
    requires ValidConfig(cfg) && !cfg.rechecksTerm
    ensures |cfg.members| <= 2 <==> ResumesKeepCommits(cfg)
  {
    hide ResumesKeepCommits;
    if |cfg.members| <= 2 {
      NothingToResume(cfg);
    } else {
      ResumeLoses(cfg);
    }
  }
}
