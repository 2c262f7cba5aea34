/**
 What a step does to the node whose handler it runs; no other node changes.
 */
module Actors {
  import opened Commands
  import opened RaftTypes
  import opened Handlers
  import opened Clusters

  /** What the step's handler makes of its node. */
  function ActorAfter(cfg: Config, s: Cluster, a: Action): Node
    requires Enabled(s, a)
  {
    var me := Self(cfg, Actor(a));
    var n := s.nodes[Actor(a)];
    match a
    case Timeout(_) => StartElection(me, n)
    case Heartbeats(_) => HeartbeatNode(me, n)
    case Submit(_, command) => SubmitCommand(me, n, command).node
    case DeliverVote(req) => if ReleasesLock(n, req) then BecomeFollower(n, req.term) else OnRequestVote(n, req).node
    case ResumeVote(req) => DecideVote(n, req).node
    case ReturnVote(reply) => OnVoteReply(me, n, reply)
    case DeliverAppend(req) => OnAppendEntries(me, n, req).node
    case ReturnAppend(reply) => OnAppendReply(me, n, reply)
    case StepDown(req) => BecomeFollower(n, req.term)
    case ResumeAppend(p) => ContinueAppend(me, n, p).node
  }

  lemma ReplyTargets(s: Cluster, a: Action)
    requires Enabled(s, a)
    ensures a.DeliverVote? && !ReleasesLock(s.nodes[Actor(a)], a.vreq) ==>
              OnRequestVote(s.nodes[Actor(a)], a.vreq).reply.req.to == Actor(a)
    ensures a.ResumeVote? ==> DecideVote(s.nodes[Actor(a)], a.vreq).reply.req.to == Actor(a)
  {
  }

  lemma SubmitNodes(cfg: Config, s: Cluster, v: Id, command: Command)
    requires v in s.nodes && InRange(s.nodes[v])
    ensures SubmitStep(cfg, s, v, command).nodes == s.nodes[v := SubmitCommand(Self(cfg, v), s.nodes[v], command).node]
  {
    hide HeartbeatNode, ApplyStateMachine, Broadcast;
    if s.nodes[v].role != Leader {
      assert s.nodes[v := s.nodes[v]] == s.nodes;
    }
  }

  lemma VoteNodes(s: Cluster, a: Action)
    requires Enabled(s, a) && (a.DeliverVote? || a.ResumeVote?)
    ensures a.DeliverVote? ==>
              DeliverVoteStep(s, a.vreq).nodes ==
              s.nodes[a.vreq.to := if ReleasesLock(s.nodes[a.vreq.to], a.vreq)
                                   then BecomeFollower(s.nodes[a.vreq.to], a.vreq.term)
                                   else OnRequestVote(s.nodes[a.vreq.to], a.vreq).node]
    ensures a.ResumeVote? ==>
              ResumeVoteStep(s, a.vreq).nodes == s.nodes[a.vreq.to := DecideVote(s.nodes[a.vreq.to], a.vreq).node]
  {
    ReplyTargets(s, a);
    hide BecomeFollower, OnRequestVote, DecideVote;
  }

  /** A step changes its own node only. */
  lemma NextNodes(cfg: Config, s: Cluster, a: Action)
    requires Enabled(s, a)
    ensures Next(cfg, s, a).nodes == s.nodes[Actor(a) := ActorAfter(cfg, s, a)]
  {
    hide BecomeFollower, StartElection, HeartbeatNode, Broadcast, Canvass, SubmitCommand;
    hide OnRequestVote, DecideVote, OnVoteReply, OnAppendEntries, OnAppendReply, ContinueAppend;
    hide SubmitStep, DeliverVoteStep, ResumeVoteStep;
    match a
    case Submit(v, command) => SubmitNodes(cfg, s, v, command);
    case DeliverVote(_) => VoteNodes(s, a);
    case ResumeVote(_) => VoteNodes(s, a);
    case _ =>
  }

  lemma TimelyRunStep(cfg: Config, run: seq<Cluster>, i: nat)
    requires IsTimelyRun(cfg, run) && i + 1 < |run|
    ensures TimelyStep(cfg, run[i], run[i + 1]) && Step(cfg, run[i], run[i + 1])
  {
    assert TimelyStepAt(cfg, run, i);
  }

  lemma RunStep(cfg: Config, run: seq<Cluster>, i: nat)
    requires IsRun(cfg, run) && i + 1 < |run|
    ensures Step(cfg, run[i], run[i + 1])
  {
    assert StepAt(cfg, run, i);
  }
}
