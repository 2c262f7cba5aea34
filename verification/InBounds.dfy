/**
 No handler ever reads outside its log, in any cluster: whatever raises commitIndex is
 followed at once by the apply loop, and what it is raised to is inside the log.
 */
module InBounds {
  import opened Commands
  import opened RaftTypes
  import opened LogMerge
  import opened Handlers
  import opened Clusters
  import opened Steps
  import opened Actors

  /** Nothing that is committed waits to be applied. */
  predicate Settled(n: Node) {
    -1 <= n.commitIndex <= n.lastApplied
  }

  lemma ApplySettles(me: Member, n: Node)
    requires InRange(n)
    ensures Settled(ApplyStateMachine(me, n))
  {
    hide ScanFrom;
  }

  lemma ElectionSettled(me: Member, n: Node)
    requires Settled(n)
    ensures Settled(StartElection(me, n)) && Settled(HeartbeatNode(me, n))
  {
    var c := n.(role := Candidate, currentTerm := n.currentTerm + 1, votedFor := me.id, votes := 1, won := false);
    LeaderSettled(me, c);
    ApplySettles(me, n);
    hide BecomeLeader, ApplyStateMachine;
  }

  lemma LeaderSettled(me: Member, n: Node)
    requires Settled(n)
    ensures Settled(BecomeLeader(me, n))
  {
    var l := n.(role := Leader,
                nextIndex := n.nextIndex + map q | q in me.peers :: |n.log|,
                matchIndex := n.matchIndex + map q | q in me.peers :: -1);
    ApplySettles(me, l);
    hide ApplyStateMachine;
  }

  lemma SubmitSettled(me: Member, n: Node, command: Command)
    requires Settled(n)
    ensures Settled(SubmitCommand(me, n, command).node)
  {
    var longer := n.(log := n.log + [Entry(n.currentTerm, command)]);
    HeartbeatTouches(me, longer);
    ApplySettles(me, longer);
    ApplySettles(me, HeartbeatNode(me, longer));
    hide ApplyStateMachine;
  }

  lemma RequestSettled(n: Node, req: VoteReq)
    requires Settled(n)
    ensures Settled(OnRequestVote(n, req).node) && Settled(DecideVote(n, req).node)
    ensures Settled(BecomeFollower(n, req.term))
  {
    hide UpToDate;
  }

  lemma CallbackSettled(me: Member, n: Node, reply: VoteReply)
    requires Settled(n)
    ensures Settled(OnVoteReply(me, n, reply))
  {
    LeaderSettled(me, n.(votes := n.votes + 1, won := true));
    hide BecomeLeader, Majority;
  }

  lemma StoreSettled(me: Member, n: Node, m: AppendReq)
    requires Settled(n) && PrevMatches(n.log, m)
    ensures Settled(Store(me, n, m))
  {
    var merged := n.(log := Merge(n.log, m.First(), m.entries));
    if m.leaderCommit > n.commitIndex {
      ApplySettles(me, merged.(commitIndex := Min(m.leaderCommit, |merged.log| - 1)));
    }
    hide ApplyStateMachine, Merge;
  }

  lemma AppendSettled(me: Member, n: Node, m: AppendReq)
    requires Settled(n)
    ensures Settled(OnAppendEntries(me, n, m).node) && Settled(BecomeFollower(n, m.term))
  {
    if PrevMatches(Recognise(n, m).log, m) {
      StoreSettled(me, Recognise(n, m), m);
    }
    hide Store;
  }

  lemma ContinueSettled(me: Member, n: Node, p: Paused)
    requires Settled(n)
    ensures Settled(ContinueAppend(me, n, p).node)
  {
    if PrevMatches(n.log, p.req) {
      StoreSettled(me, n, p.req);
    }
    hide Store;
  }

  lemma ReplySettled(me: Member, n: Node, reply: AppendReply)
    requires Settled(n)
    ensures Settled(OnAppendReply(me, n, reply))
  {
    ApplySettles(me, n.(
      matchIndex := n.matchIndex[reply.req.to := reply.req.End() - 1],
      nextIndex := n.nextIndex[reply.req.to := reply.req.End()]));
    hide ApplyStateMachine;
  }

  lemma ActorSettled(cfg: Config, s: Cluster, a: Action)
    requires Enabled(s, a) && Settled(s.nodes[Actor(a)])
    ensures Settled(ActorAfter(cfg, s, a))
  {
    var me := Self(cfg, Actor(a));
    var n := s.nodes[Actor(a)];
    hide StartElection, HeartbeatNode, SubmitCommand, OnRequestVote, DecideVote, OnVoteReply, OnAppendEntries, OnAppendReply;
    hide Settled, BecomeFollower, ContinueAppend;
    match a
    case Timeout(_) => ElectionSettled(me, n);
    case Heartbeats(_) => ElectionSettled(me, n);
    case Submit(_, command) => SubmitSettled(me, n, command);
    case DeliverVote(req) => RequestSettled(n, req);
    case ResumeVote(req) => RequestSettled(n, req);
    case ReturnVote(reply) => CallbackSettled(me, n, reply);
    case DeliverAppend(m) => AppendSettled(me, n, m);
    case ReturnAppend(reply) => ReplySettled(me, n, reply);
    case StepDown(m) => AppendSettled(me, n, m);
    case ResumeAppend(p) => ContinueSettled(me, n, p);
  }

  ghost predicate AllSettled(s: Cluster) {
    forall v :: v in s.nodes ==> Settled(s.nodes[v])
  }

  lemma StepSettled(cfg: Config, s: Cluster, s': Cluster)
    requires AllSettled(s) && Step(cfg, s, s')
    ensures AllSettled(s')
  {
    var a :| Enabled(s, a) && s' == Next(cfg, s, a);
    NextNodes(cfg, s, a);
    ActorSettled(cfg, s, a);
    hide Next, ActorAfter, Settled;
  }

  lemma StartSettled(cfg: Config, run: seq<Cluster>)
    requires IsRun(cfg, run)
    ensures AllSettled(run[0])
  {
  }

  lemma {:induction false} RunSettled(cfg: Config, run: seq<Cluster>, i: nat)
    requires IsRun(cfg, run) && i < |run|
    ensures AllSettled(run[i])
  {
    hide *;
    if i == 0 {
      StartSettled(cfg, run);
    } else {
      RunSettled(cfg, run, i - 1);
      RunStep(cfg, run, i - 1);
      StepSettled(cfg, run[i - 1], run[i]);
    }
  }

  /** In every reachable state of every cluster, all that is committed has been applied. */
  lemma ReachableSettled(cfg: Config, s: Cluster, v: Id)
    requires Reachable(cfg, s) && v in s.nodes
    ensures Settled(s.nodes[v]) && InRange(s.nodes[v])
  {
    var run :| IsRun(cfg, run) && run[|run| - 1] == s;
    RunSettled(cfg, run, |run| - 1);
  }

  /** No timer, client or message makes a handler read outside its log: whatever is offered
      is enabled. */
  lemma NoReadOutsideLog(cfg: Config, s: Cluster, a: Action)
    requires Reachable(cfg, s) && Offered(s, a)
    ensures Enabled(s, a)
  {
    hide Reachable;
    ReachableSettled(cfg, s, Actor(a));
  }
}
