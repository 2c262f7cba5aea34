/**
 What holds along whole runs: the invariants in every state, and growth between states.
 */
module Runs {
  import opened Clusters
  import opened Invariants
  import opened Growth
  import opened Steps
  import opened CommitSteps
  import opened Actors
  import opened Gaps

  lemma StartBase(cfg: Config, run: seq<Cluster>)
    requires ValidConfig(cfg) && IsTimelyRun(cfg, run)
    ensures Base(cfg, run[0])
  {
    hide Base;
    InitBase(cfg);
  }

  lemma TimelyRunWaiting(cfg: Config, run: seq<Cluster>, i: nat)
    requires IsTimelyRun(cfg, run) && i < |run|
    ensures Waiting(run[i])
  {
    hide *;
    TimelyIsRun(cfg, run);
    RunWaiting(cfg, run, i);
  }

  lemma {:induction false} RunBaseAt(cfg: Config, run: seq<Cluster>, i: nat)
    requires ValidConfig(cfg) && IsTimelyRun(cfg, run) && i < |run|
    ensures Base(cfg, run[i])
  {
    hide *;
    if i == 0 {
      StartBase(cfg, run);
    } else {
      RunBaseAt(cfg, run, i - 1);
      TimelyRunStep(cfg, run, i - 1);
      TimelyRunWaiting(cfg, run, i - 1);
      StepBase(cfg, run[i - 1], run[i]);
    }
  }

  lemma StartCommitting(cfg: Config, run: seq<Cluster>)
    requires ValidConfig(cfg) && IsTimelyRun(cfg, run)
    ensures Committing(cfg, run[0])
  {
    hide Committing;
    InitCommitting(cfg);
  }

  lemma {:induction false} RunCommittingAt(cfg: Config, run: seq<Cluster>, i: nat)
    requires ValidConfig(cfg) && ScanIsSafe(cfg) && IsTimelyRun(cfg, run) && i < |run|
    ensures Committing(cfg, run[i])
  {
    hide *;
    if i == 0 {
      StartCommitting(cfg, run);
    } else {
      RunBaseAt(cfg, run, i - 1);
      RunCommittingAt(cfg, run, i - 1);
      TimelyRunStep(cfg, run, i - 1);
      TimelyRunWaiting(cfg, run, i - 1);
      StepCommitting(cfg, run[i - 1], run[i]);
    }
  }

  lemma {:induction false} RunGrows(cfg: Config, run: seq<Cluster>, i: nat, j: nat)
    requires ValidConfig(cfg) && IsTimelyRun(cfg, run) && i <= j < |run|
    ensures Grows(run[i], run[j])
    decreases j
  {
    hide *;
    if i == j {
      GrowsReflexive(run[i]);
    } else {
      RunGrows(cfg, run, i, j - 1);
      RunBaseAt(cfg, run, j - 1);
      TimelyRunStep(cfg, run, j - 1);
      TimelyRunWaiting(cfg, run, j - 1);
      StepBase(cfg, run[j - 1], run[j]);
      GrowsTransitive(run[i], run[j - 1], run[j]);
    }
  }

  lemma TimelyBase(cfg: Config, s: Cluster)
    requires ValidConfig(cfg) && TimelyReachable(cfg, s)
    ensures Base(cfg, s)
  {
    hide Base;
    var run :| IsTimelyRun(cfg, run) && run[|run| - 1] == s;
    RunBaseAt(cfg, run, |run| - 1);
  }

  lemma TimelyCommitting(cfg: Config, s: Cluster)
    requires ValidConfig(cfg) && ScanIsSafe(cfg) && TimelyReachable(cfg, s)
    ensures Base(cfg, s) && Committing(cfg, s)
  {
    hide Base;
    hide Committing;
    var run :| IsTimelyRun(cfg, run) && run[|run| - 1] == s;
    RunBaseAt(cfg, run, |run| - 1);
    RunCommittingAt(cfg, run, |run| - 1);
  }
}
