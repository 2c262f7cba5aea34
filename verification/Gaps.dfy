/**
 Handlers of onAppendEntries that wait for the mutex: their nodes have reached the term of
 the request, and while they are in it they follow. This holds in every cluster.
 */
module Gaps {
  import opened Commands
  import opened RaftTypes
  import opened Handlers
  import opened Clusters
  import opened Invariants
  import opened Steps
  import opened Actors

  /** Within its term a follower stays one. */
  ghost predicate StaysDown(n: Node, n': Node) {
    && n.currentTerm <= n'.currentTerm
    && (n'.currentTerm == n.currentTerm && n.role == Follower ==> n'.role == Follower)
  }

  lemma ElectionStays(me: Member, n: Node)
    requires InRange(n)
    ensures StaysDown(n, StartElection(me, n)) && StaysDown(n, HeartbeatNode(me, n))
  {
    hide ScanFrom;
  }

  lemma SubmitStays(me: Member, n: Node, command: Command)
    requires InRange(n)
    ensures StaysDown(n, SubmitCommand(me, n, command).node)
  {
    if n.role == Leader { SubmitTouches(me, n, command); }
  }

  lemma VotesStay(me: Member, n: Node, req: VoteReq, reply: VoteReply)
    requires InRange(n)
    ensures StaysDown(n, OnRequestVote(n, req).node) && StaysDown(n, DecideVote(n, req).node)
    ensures StaysDown(n, OnVoteReply(me, n, reply))
    ensures req.term > n.currentTerm ==> StaysDown(n, BecomeFollower(n, req.term))
  {
    hide ScanFrom;
  }

  lemma AppendStays(me: Member, n: Node, m: AppendReq)
    requires InRange(n)
    ensures StaysDown(n, OnAppendEntries(me, n, m).node)
    ensures m.term > n.currentTerm ==> StaysDown(n, BecomeFollower(n, m.term))
  {
    var f := Recognise(n, m);
    if PrevMatches(f.log, m) { StoreTouches(me, f, m); }
  }

  lemma ContinueStays(me: Member, n: Node, p: Paused)
    requires InRange(n)
    ensures StaysDown(n, ContinueAppend(me, n, p).node)
  {
    if PrevMatches(n.log, p.req) { StoreTouches(me, n, p.req); }
  }

  lemma ReplyStays(me: Member, n: Node, reply: AppendReply)
    requires InRange(n)
    ensures StaysDown(n, OnAppendReply(me, n, reply))
  {
    hide ScanFrom;
  }

  lemma StepStays(cfg: Config, s: Cluster, a: Action)
    requires Enabled(s, a)
    ensures Next(cfg, s, a).nodes == s.nodes[Actor(a) := ActorAfter(cfg, s, a)]
    ensures StaysDown(s.nodes[Actor(a)], ActorAfter(cfg, s, a))
  {
    hide StartElection, HeartbeatNode, SubmitCommand, OnRequestVote, DecideVote, OnVoteReply;
    hide OnAppendEntries, OnAppendReply, ContinueAppend;
    NextNodes(cfg, s, a);
    var me := Self(cfg, Actor(a));
    var n := s.nodes[Actor(a)];
    match a
    case Timeout(_) => ElectionStays(me, n);
    case Heartbeats(_) => ElectionStays(me, n);
    case Submit(_, command) => SubmitStays(me, n, command);
    case DeliverVote(req) => VotesStay(me, n, req, VoteReply(req, 0, false));
    case ResumeVote(req) => VotesStay(me, n, req, VoteReply(req, 0, false));
    case ReturnVote(reply) => VotesStay(me, n, reply.req, reply);
    case DeliverAppend(m) => AppendStays(me, n, m);
    case ReturnAppend(reply) => ReplyStays(me, n, reply);
    case StepDown(m) => AppendStays(me, n, m);
    case ResumeAppend(p) => ContinueStays(me, n, p);
  }

  lemma ParkedAfter(cfg: Config, s: Cluster, a: Action)
    requires Enabled(s, a)
    ensures Next(cfg, s, a).parkedAppends ==
            if a.StepDown? then s.parkedAppends + {Paused(a.areq, s.nodes[a.areq.to].currentTerm)}
            else if a.ResumeAppend? then s.parkedAppends - {a.paused}
            else s.parkedAppends
    ensures s.appends <= Next(cfg, s, a).appends
  {
    hide StartElection, HeartbeatNode, SubmitCommand, OnRequestVote, DecideVote, OnVoteReply;
    hide OnAppendEntries, OnAppendReply, ContinueAppend, BecomeFollower, Broadcast, Canvass, InRange;
  }

  lemma StepWaiting(cfg: Config, s: Cluster, a: Action)
    requires Waiting(s) && Enabled(s, a)
    ensures Waiting(Next(cfg, s, a))
  {
    StepStays(cfg, s, a);
    ParkedAfter(cfg, s, a);
    var s' := Next(cfg, s, a);
    if a.StepDown? {
      assert s'.nodes[a.areq.to] == BecomeFollower(s.nodes[a.areq.to], a.areq.term);
    }
    hide Next, ActorAfter;
    forall p | p in s'.parkedAppends ensures WaitOk(s', p) {
      assert p in s.parkedAppends ==> WaitOk(s, p);
    }
  }

  lemma StepKeepsWaiting(cfg: Config, s: Cluster, s': Cluster)
    requires Waiting(s) && Step(cfg, s, s')
    ensures Waiting(s')
  {
    var a :| Enabled(s, a) && s' == Next(cfg, s, a);
    hide Next, Enabled, Waiting;
    StepWaiting(cfg, s, a);
  }

  lemma NoneWaits(cfg: Config, run: seq<Cluster>)
    requires IsRun(cfg, run)
    ensures Waiting(run[0])
  {
  }

  lemma {:induction false} RunWaiting(cfg: Config, run: seq<Cluster>, i: nat)
    requires IsRun(cfg, run) && i < |run|
    ensures Waiting(run[i])
  {
    hide *;
    if i == 0 {
      NoneWaits(cfg, run);
    } else {
      RunWaiting(cfg, run, i - 1);
      RunStep(cfg, run, i - 1);
      StepKeepsWaiting(cfg, run[i - 1], run[i]);
    }
  }

  lemma ReachableWaiting(cfg: Config, s: Cluster)
    requires Reachable(cfg, s)
    ensures Waiting(s)
  {
    var run :| IsRun(cfg, run) && run[|run| - 1] == s;
    RunWaiting(cfg, run, |run| - 1);
  }

  /** Unless it goes on late, the resumed handler leaves its node alone or does what handling
      the request afresh would do. */
  lemma ContinueIs(me: Member, n: Node, p: Paused)
    requires -1 <= n.lastApplied && -1 <= n.commitIndex && p.req.term <= n.currentTerm
    requires me.rechecksTerm || n.currentTerm == p.req.term
    requires n.currentTerm == p.req.term ==> n.role == Follower
    ensures ContinueAppend(me, n, p).node == n || ContinueAppend(me, n, p).node == OnAppendEntries(me, n, p.req).node
    ensures ContinueAppend(me, n, p).reply.success ==>
              n.currentTerm == p.req.term && OnAppendEntries(me, n, p.req).reply.success
              && ContinueAppend(me, n, p).node == OnAppendEntries(me, n, p.req).node
  {
    hide Store;
  }

  // ----- One handler at a time -----

  /** No node has two unfinished request handlers. */
  ghost predicate OneEach(s: Cluster) {
    && (forall r, r' :: r in s.parked && r' in s.parked && r.to == r'.to ==> r == r')
    && (forall p, p' :: p in s.parkedAppends && p' in s.parkedAppends && p.req.to == p'.req.to ==> p == p')
    && (forall r, p :: r in s.parked && p in s.parkedAppends ==> r.to != p.req.to)
  }

  lemma ParkedVotesAfter(cfg: Config, s: Cluster, a: Action)
    requires Enabled(s, a)
    ensures Next(cfg, s, a).parked ==
            if a.DeliverVote? && ReleasesLock(s.nodes[a.vreq.to], a.vreq) then s.parked + {a.vreq}
            else if a.ResumeVote? then s.parked - {a.vreq}
            else s.parked
  {
    hide StartElection, HeartbeatNode, SubmitCommand, OnRequestVote, DecideVote, OnVoteReply;
    hide OnAppendEntries, OnAppendReply, ContinueAppend, BecomeFollower, Broadcast, Canvass, InRange;
  }

  lemma StepOneEach(cfg: Config, s: Cluster, s': Cluster)
    requires OneEach(s) && Step(cfg, s, s')
    ensures OneEach(s')
  {
    hide Next;
    var a :| Enabled(s, a) && s' == Next(cfg, s, a);
    ParkedAfter(cfg, s, a);
    ParkedVotesAfter(cfg, s, a);
  }

  lemma StartOneEach(cfg: Config, run: seq<Cluster>)
    requires IsRun(cfg, run)
    ensures OneEach(run[0])
  {
  }

  lemma {:induction false} RunOneEach(cfg: Config, run: seq<Cluster>, i: nat)
    requires IsRun(cfg, run) && i < |run|
    ensures OneEach(run[i])
  {
    hide *;
    if i == 0 {
      StartOneEach(cfg, run);
    } else {
      RunOneEach(cfg, run, i - 1);
      RunStep(cfg, run, i - 1);
      StepOneEach(cfg, run[i - 1], run[i]);
    }
  }

  /** A handler that goes on leaves its node free to handle requests again: it was the only one
      waiting. */
  lemma ResumeFrees(cfg: Config, s: Cluster, a: Action)
    requires Reachable(cfg, s) && Enabled(s, a) && (a.ResumeVote? || a.ResumeAppend?)
    ensures Busy(s, Actor(a)) && !Busy(Next(cfg, s, a), Actor(a))
  {
    var run :| IsRun(cfg, run) && run[|run| - 1] == s;
    RunOneEach(cfg, run, |run| - 1);
    hide Next, Reachable, IsRun;
    ParkedAfter(cfg, s, a);
    ParkedVotesAfter(cfg, s, a);
  }
}
