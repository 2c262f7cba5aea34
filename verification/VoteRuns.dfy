/**
 Every step of every cluster keeps Voting, whatever becomes of the logs.
 */
module VoteRuns {
  import opened Commands
  import opened RaftTypes
  import opened Handlers
  import opened Clusters
  import opened Invariants
  import opened VoteSteps
  import opened Elections
  import opened Replications
  import opened Steps
  import opened Actors
  import opened Gaps

  // ----- Timers and commands -----

  lemma TouchQuiet(s: Cluster, v: Id, n: Node)
    requires v in s.nodes && SameCast(s.nodes[v], n)
    ensures Quiet(s, SetNode(s, v, n))
  {
  }

  lemma TouchVotes(cfg: Config, s: Cluster, v: Id, n: Node)
    requires Voting(cfg, s) && v in s.nodes && SameCast(s.nodes[v], n)
    ensures Voting(cfg, SetNode(s, v, n))
  {
    hide Voting, Quiet;
    TouchQuiet(s, v, n);
    QuietVotes(cfg, s, SetNode(s, v, n), v);
  }

  lemma HeartbeatCast(me: Member, n: Node)
    requires InRange(n)
    ensures SameCast(n, HeartbeatNode(me, n))
  {
    HeartbeatTouches(me, n);
    hide HeartbeatNode;
  }

  /** Whoever led a term led it for good. */
  ghost predicate ReignsStay(s: Cluster, s': Cluster) {
    forall t :: t in s.reigns ==> t in s'.reigns && s'.reigns[t].leader == s.reigns[t].leader
  }

  lemma WinReigns(cfg: Config, s: Cluster, c: Id, won: bool, n: Node)
    requires c in s.nodes && s.nodes[c].currentTerm !in s.reigns
    ensures ReignsStay(s, SetNode(Win(cfg, s, c, won), c, n))
  {
  }

  /** The first heartbeats of a node that has just won. */
  lemma WonVotes(cfg: Config, s: Cluster, c: Id, won: bool)
    requires Voting(cfg, s) && Elected(cfg, s, c) && InRange(s.nodes[c])
    ensures InRange(LeaderRecord(cfg, s.nodes[c], c, won))
    ensures Voting(cfg, SetNode(Win(cfg, s, c, won), c,
                                HeartbeatNode(Self(cfg, c), LeaderRecord(cfg, s.nodes[c], c, won))))
    ensures ReignsStay(s, SetNode(Win(cfg, s, c, won), c,
                                  HeartbeatNode(Self(cfg, c), LeaderRecord(cfg, s.nodes[c], c, won))))
  {
    hide Voting, HeartbeatNode;
    var l := LeaderRecord(cfg, s.nodes[c], c, won);
    WinVoting(cfg, s, c, won);
    WinReigns(cfg, s, c, won, HeartbeatNode(Self(cfg, c), l));
    hide ReignsStay;
    HeartbeatCast(Self(cfg, c), l);
    TouchVotes(cfg, Win(cfg, s, c, won), c, HeartbeatNode(Self(cfg, c), l));
  }

  lemma ReignsSame(s: Cluster, s': Cluster, s'': Cluster)
    requires s'.reigns == s.reigns && (s'' == s' || ReignsStay(s', s'') || s''.reigns == s.reigns)
    ensures ReignsStay(s, s'')
  {
  }

  lemma TimeoutVotes(cfg: Config, s: Cluster, v: Id)
    requires Voting(cfg, s) && v in s.nodes && InRange(s.nodes[v]) && s.nodes[v].role != Leader
    ensures Voting(cfg, TimeoutStep(cfg, s, v)) && ReignsStay(s, TimeoutStep(cfg, s, v))
  {
    assert v in cfg.members;
    hide *;
    TimeoutIs(cfg, s, v);
    CampaignVotes(cfg, s, v);
    CampaignAlone(cfg, s, v);
    if 1 >= Majority(Self(cfg, v)) {
      WonVotes(cfg, Campaign(cfg, s, v), v, false);
      ReignsSame(s, Campaign(cfg, s, v), TimeoutStep(cfg, s, v));
    } else {
      ReignsSame(s, s, Campaign(cfg, s, v));
    }
  }

  lemma BroadcastFromLeader(cfg: Config, s: Cluster, n: Node, v: Id)
    requires s.nodes.Keys == cfg.members && v in s.nodes
    requires n.role == Leader ==> n.currentTerm in s.reigns && s.reigns[n.currentTerm].leader == v
    ensures forall m :: m in Broadcast(Self(cfg, v), n) ==> FromLeader(s, m)
  {
  }

  lemma SendVotes(cfg: Config, s: Cluster, v: Id)
    requires Voting(cfg, s) && v in s.nodes
    ensures Voting(cfg, Send(cfg, s, v)) && Send(cfg, s, v).reigns == s.reigns
  {
    var s' := Send(cfg, s, v);
    assert Casts(s, v);
    BroadcastFromLeader(cfg, s', s.nodes[v], v);
    hide Broadcast, Casts, FromLeader, Voting;
    assert Quiet(s, s');
    QuietVotes(cfg, s, s', v);
  }

  lemma HeartbeatVotes(cfg: Config, s: Cluster, v: Id)
    requires Voting(cfg, s) && v in s.nodes && InRange(s.nodes[v])
    ensures Voting(cfg, HeartbeatStep(cfg, s, v))
  {
    hide Voting, HeartbeatNode, Broadcast;
    SendVotes(cfg, s, v);
    HeartbeatCast(Self(cfg, v), s.nodes[v]);
    TouchVotes(cfg, Send(cfg, s, v), v, HeartbeatNode(Self(cfg, v), s.nodes[v]));
  }

  lemma LengthenVotes(cfg: Config, s: Cluster, v: Id, e: Entry)
    requires Voting(cfg, s) && v in s.nodes && s.nodes[v].currentTerm in s.reigns
    ensures Voting(cfg, Lengthen(s, v, e))
  {
    hide Voting;
    assert Quiet(s, Lengthen(s, v, e));
    QuietVotes(cfg, s, Lengthen(s, v, e), v);
  }

  lemma SubmitVotes(cfg: Config, s: Cluster, v: Id, command: Command)
    requires Voting(cfg, s) && v in s.nodes && InRange(s.nodes[v]) && s.nodes[v].role == Leader
    ensures Voting(cfg, SubmitStep(cfg, s, v, command))
  {
    assert s.nodes[v].currentTerm in s.reigns by { assert Casts(s, v); }
    hide Voting, SubmitStep, SubmitCommand, Send;
    var e := Entry(s.nodes[v].currentTerm, command);
    var n := SubmitCommand(Self(cfg, v), s.nodes[v], command).node;
    SubmitIs(cfg, s, v, command);
    SubmitTouches(Self(cfg, v), s.nodes[v], command);
    LengthenVotes(cfg, s, v, e);
    TouchVotes(cfg, Lengthen(s, v, e), v, n);
    SendVotes(cfg, SetNode(Lengthen(s, v, e), v, n), v);
  }

  lemma SubmitOrRejectVotes(cfg: Config, s: Cluster, v: Id, command: Command)
    requires Voting(cfg, s) && v in s.nodes && InRange(s.nodes[v])
    ensures Voting(cfg, SubmitStep(cfg, s, v, command))
  {
    hide Voting;
    if s.nodes[v].role == Leader {
      SubmitVotes(cfg, s, v, command);
    }
  }

  // ----- Votes -----

  lemma DecideVotes(cfg: Config, s: Cluster, req: VoteReq)
    requires Voting(cfg, s) && req in s.voteReqs && req.to in s.nodes && s.nodes[req.to].currentTerm >= req.term
    ensures Voting(cfg, RecordVote(s, DecideVote(s.nodes[req.to], req)))
  {
    hide Voting, RecordVote, DecideVote, Grant, Deny, Grantable;
    DecideIs(s, req);
    if Grantable(s, req) {
      GrantVotes(cfg, s, req);
    } else {
      DenyVotes(cfg, s, req);
    }
  }

  lemma DeliverVoteVotes(cfg: Config, s: Cluster, req: VoteReq)
    requires Voting(cfg, s) && req in s.voteReqs && req.to in s.nodes
    ensures Voting(cfg, DeliverVoteStep(s, req))
  {
    hide Voting, DeliverVoteStep, RecordVote, DecideVote, Deny;
    if req.term > s.nodes[req.to].currentTerm {
      var down := SetNode(s, req.to, BecomeFollower(s.nodes[req.to], req.term));
      DeliverHigherIs(s, req);
      DownVotes(cfg, s, req.to, req.term);
      if ReleasesLock(s.nodes[req.to], req) {
        ParkVotes(cfg, down, req);
      } else {
        DecideVotes(cfg, down, req);
      }
    } else {
      DeliverOtherIs(s, req);
      if req.term < s.nodes[req.to].currentTerm {
        DenyVotes(cfg, s, req);
      } else {
        DecideVotes(cfg, s, req);
      }
    }
  }

  lemma ResumeVoteVotes(cfg: Config, s: Cluster, req: VoteReq)
    requires Voting(cfg, s) && req in s.parked && req.to in s.nodes
    ensures Voting(cfg, ResumeVoteStep(s, req))
  {
    assert req in s.voteReqs && ParkedOk(s, req);
    hide Voting, RecordVote, DecideVote;
    DecideVotes(cfg, s, req);
    DecidedHas(s, req);
    FinishVotes(cfg, Decided(s, req), req.to, s.parked - {req}, s.parkedAppends);
  }

  lemma ReturnUncountedVotes(cfg: Config, s: Cluster, reply: VoteReply)
    requires Voting(cfg, s) && reply.req.candidate in s.nodes && InRange(s.nodes[reply.req.candidate])
    requires !CountsVote(s.nodes[reply.req.candidate], reply)
    ensures Voting(cfg, ReturnVoteStep(cfg, s, reply)) && ReignsStay(s, ReturnVoteStep(cfg, s, reply))
  {
    hide Voting, ReturnVoteStep, CountsVote;
    var c := reply.req.candidate;
    ReturnUncountedIs(cfg, s, reply);
    if reply.term > s.nodes[c].currentTerm {
      DownVotes(cfg, s, c, reply.term);
      ReturnedVotes(cfg, SetNode(s, c, BecomeFollower(s.nodes[c], reply.term)), c, CallOf(reply.req));
    } else {
      ReturnedVotes(cfg, s, c, CallOf(reply.req));
    }
  }

  lemma CandidateCast(cfg: Config, s: Cluster, c: Id)
    requires Voting(cfg, s) && c in s.nodes && s.nodes[c].role == Candidate
    ensures !s.nodes[c].won && TermId(s.nodes[c].currentTerm, c) in s.ballots && c in cfg.members
  {
    assert Casts(s, c);
  }

  lemma CountedCandidate(cfg: Config, s: Cluster, reply: VoteReply)
    requires Countable(s, reply) && InRange(s.nodes[reply.req.candidate])
    requires reply.req.candidate in cfg.members
    ensures var n := Count(s, reply).nodes[reply.req.candidate];
            && InRange(n) && n.role == Candidate
            && (n.votes >= Majority(Self(cfg, reply.req.candidate)) <==> Elected(cfg, Count(s, reply), reply.req.candidate))
  {
    SelfMajority(cfg, reply.req.candidate);
  }

  lemma CountedReigns(cfg: Config, s: Cluster, reply: VoteReply)
    requires Countable(s, reply)
    ensures Count(s, reply).reigns == s.reigns && reply.req.candidate in Count(s, reply).nodes
  {
  }

  lemma ReturnCountedVotes(cfg: Config, s: Cluster, reply: VoteReply)
    requires Voting(cfg, s) && Countable(s, reply) && InRange(s.nodes[reply.req.candidate])
    ensures Voting(cfg, ReturnVoteStep(cfg, s, reply)) && ReignsStay(s, ReturnVoteStep(cfg, s, reply))
  {
    hide Voting, ReturnVoteStep, HeartbeatNode, Win, LeaderRecord, Send, Elected;
    var c := reply.req.candidate;
    CandidateCast(cfg, s, c);
    ReturnCountedIs(cfg, s, reply);
    CountVotes(cfg, s, reply);
    CountedCandidate(cfg, s, reply);
    CountedReigns(cfg, s, reply);
    hide Count;
    if Elected(cfg, Count(s, reply), c) {
      WonVotes(cfg, Count(s, reply), c, true);
      SendVotes(cfg, SetNode(Win(cfg, Count(s, reply), c, true), c,
                             HeartbeatNode(Self(cfg, c), LeaderRecord(cfg, Count(s, reply).nodes[c], c, true))), c);
    }
  }

  lemma ReturnVoteVotes(cfg: Config, s: Cluster, reply: VoteReply)
    requires Voting(cfg, s) && reply in s.voteReplies && CallOf(reply.req) !in s.returned
    requires reply.req.candidate in s.nodes && InRange(s.nodes[reply.req.candidate])
    ensures Voting(cfg, ReturnVoteStep(cfg, s, reply)) && ReignsStay(s, ReturnVoteStep(cfg, s, reply))
  {
    hide Voting, ReturnVoteStep, ReignsStay;
    if CountsVote(s.nodes[reply.req.candidate], reply) {
      CandidateCast(cfg, s, reply.req.candidate);
      ReturnCountedVotes(cfg, s, reply);
    } else {
      ReturnUncountedVotes(cfg, s, reply);
    }
  }

  // ----- AppendEntries -----

  /** No AppendEntries of its own term ever reaches a leader. */
  lemma LeaderNotAddressed(s: Cluster, m: AppendReq)
    requires FromLeader(s, m) && Casts(s, m.to)
    ensures s.nodes[m.to].role == Leader ==> s.nodes[m.to].currentTerm != m.term
  {
  }

  lemma RecogniseVotes(cfg: Config, s: Cluster, m: AppendReq)
    requires Voting(cfg, s) && FromLeader(s, m) && m.term >= s.nodes[m.to].currentTerm
    ensures !SplitBrain(Self(cfg, m.to), s.nodes[m.to], m)
    ensures Voting(cfg, Recognised(s, m))
  {
    LeaderNotAddressed(s, m);
    RecognisedIs(s, m);
    hide Voting, LexLess, Casts, Recognised;
    if m.term > s.nodes[m.to].currentTerm {
      DownVotes(cfg, s, m.to, m.term);
    } else if s.nodes[m.to].role == Candidate {
      ResignVotes(cfg, s, m.to);
    }
  }

  lemma FinishCast(me: Member, n: Node, m: AppendReq, heard: nat)
    requires -1 <= n.lastApplied && -1 <= n.commitIndex
    ensures SameCast(n, FinishAppend(me, n, m, heard).node) && RefusalForm(FinishAppend(me, n, m, heard).reply)
  {
    if PrevMatches(n.log, m) {
      StoreTouches(me, n, m);
      hide Store;
    }
  }

  lemma RecordQuiet(s: Cluster, m: AppendReq, outcome: AppendOutcome)
    requires m.to in s.nodes && SameCast(s.nodes[m.to], outcome.node) && RefusalForm(outcome.reply)
    ensures Quiet(s, RecordAppend(s, m, outcome))
  {
    hide RefusalForm;
  }

  lemma RecordVotes(cfg: Config, s: Cluster, m: AppendReq, outcome: AppendOutcome)
    requires Voting(cfg, s)
    requires m.to in s.nodes && SameCast(s.nodes[m.to], outcome.node) && RefusalForm(outcome.reply)
    ensures Voting(cfg, RecordAppend(s, m, outcome))
  {
    hide Voting, Quiet, RecordAppend;
    RecordQuiet(s, m, outcome);
    QuietVotes(cfg, s, RecordAppend(s, m, outcome), m.to);
  }

  lemma RecognisedSame(s: Cluster, m: AppendReq, outcome: AppendOutcome)
    requires m.to in s.nodes
    ensures m.to in Recognised(s, m).nodes
    ensures RecordAppend(Recognised(s, m), m, outcome) == RecordAppend(s, m, outcome)
  {
    assert s.nodes[m.to := Recognise(s.nodes[m.to], m)][m.to := outcome.node] == s.nodes[m.to := outcome.node];
  }

  lemma HandledIs(me: Member, n: Node, m: AppendReq)
    requires -1 <= n.lastApplied && -1 <= n.commitIndex
    requires m.term >= n.currentTerm && !SplitBrain(me, n, m)
    ensures -1 <= Recognise(n, m).lastApplied && -1 <= Recognise(n, m).commitIndex
    ensures OnAppendEntries(me, n, m) == FinishAppend(me, Recognise(n, m), m, n.currentTerm)
  {
    hide FinishAppend;
  }

  lemma StaleOutcome(me: Member, n: Node, m: AppendReq)
    requires -1 <= n.lastApplied && -1 <= n.commitIndex && m.term < n.currentTerm
    ensures SameCast(n, OnAppendEntries(me, n, m).node) && RefusalForm(OnAppendEntries(me, n, m).reply)
  {
  }

  lemma DeliverAppendVotes(cfg: Config, s: Cluster, m: AppendReq)
    requires Voting(cfg, s) && m in s.appends && m.to in s.nodes && InRange(s.nodes[m.to])
    ensures Voting(cfg, DeliverAppendStep(cfg, s, m))
  {
    assert FromLeader(s, m);
    hide Voting, RecordAppend, OnAppendEntries, FinishAppend, FromLeader, SplitBrain, RefusalForm, Recognise, SameCast;
    var me := Self(cfg, m.to);
    var n := s.nodes[m.to];
    if m.term < n.currentTerm {
      StaleOutcome(me, n, m);
      RecordVotes(cfg, s, m, OnAppendEntries(me, n, m));
    } else {
      RecogniseVotes(cfg, s, m);
      HandledIs(me, n, m);
      FinishCast(me, Recognise(n, m), m, n.currentTerm);
      RecognisedSame(s, m, OnAppendEntries(me, n, m));
      RecordVotes(cfg, Recognised(s, m), m, OnAppendEntries(me, n, m));
    }
  }

  lemma ReplyCastSame(me: Member, n: Node, r: AppendReply)
    requires InRange(n) && r.term <= n.currentTerm
    ensures SameCast(n, OnAppendReply(me, n, r))
  {
    ApplyTouches(me, n.(
      matchIndex := n.matchIndex[r.req.to := r.req.End() - 1],
      nextIndex := n.nextIndex[r.req.to := r.req.End()]));
    hide ApplyStateMachine;
  }

  lemma ReturnAppendVotes(cfg: Config, s: Cluster, r: AppendReply)
    requires Voting(cfg, s) && r.req.leader in s.nodes && InRange(s.nodes[r.req.leader])
    ensures Voting(cfg, ReturnAppendStep(cfg, s, r))
  {
    var n := s.nodes[r.req.leader];
    if r.term > n.currentTerm {
      hide Voting;
      DownVotes(cfg, s, r.req.leader, r.term);
    } else {
      hide Voting, OnAppendReply, SameCast;
      ReplyCastSame(Self(cfg, r.req.leader), n, r);
      TouchVotes(cfg, s, r.req.leader, OnAppendReply(Self(cfg, r.req.leader), n, r));
    }
  }

  lemma StepDownVotes(cfg: Config, s: Cluster, m: AppendReq)
    requires Voting(cfg, s) && m.to in s.nodes && m.term > s.nodes[m.to].currentTerm
    ensures Voting(cfg, StepDownStep(s, m))
  {
    hide Voting;
    var down := SetNode(s, m.to, BecomeFollower(s.nodes[m.to], m.term));
    DownVotes(cfg, s, m.to, m.term);
    assert Quiet(down, StepDownStep(s, m));
    QuietVotes(cfg, down, StepDownStep(s, m), m.to);
  }

  lemma ContinueCast(me: Member, n: Node, p: Paused)
    requires InRange(n) && p.req.term <= n.currentTerm
    ensures SameCast(n, ContinueAppend(me, n, p).node) && RefusalForm(ContinueAppend(me, n, p).reply)
  {
    FinishCast(me, n, p.req, p.heard);
    hide FinishAppend;
  }

  lemma ResumeVotes(cfg: Config, s: Cluster, p: Paused)
    requires Voting(cfg, s) && WaitOk(s, p) && InRange(s.nodes[p.req.to])
    ensures Voting(cfg, ResumeAppendStep(cfg, s, p))
  {
    hide Voting, ContinueAppend, RecordAppend, SameCast, RefusalForm;
    ContinueCast(Self(cfg, p.req.to), s.nodes[p.req.to], p);
    RecordVotes(cfg, s, p.req, ContinueAppend(Self(cfg, p.req.to), s.nodes[p.req.to], p));
    ContinuedHas(cfg, s, p);
    FinishVotes(cfg, Continued(cfg, s, p), p.req.to, s.parked, s.parkedAppends - {p});
  }

  // ----- All steps and runs -----

  lemma OtherReigns(cfg: Config, s: Cluster, a: Action)
    requires Enabled(s, a) && !a.Timeout? && !a.ReturnVote?
    ensures ReignsStay(s, Next(cfg, s, a))
  {
    hide HeartbeatNode, SubmitCommand, OnRequestVote, DecideVote, OnAppendEntries, OnAppendReply, ContinueAppend, Broadcast;
  }

  lemma NextVoting(cfg: Config, s: Cluster, a: Action)
    requires Voting(cfg, s) && Waiting(s) && Enabled(s, a)
    ensures Voting(cfg, Next(cfg, s, a)) && ReignsStay(s, Next(cfg, s, a))
  {
    hide Voting, WaitOk, ReignsStay, InRange;
    hide TimeoutStep, HeartbeatStep, SubmitStep, DeliverVoteStep, ResumeVoteStep, ReturnVoteStep;
    hide DeliverAppendStep, ReturnAppendStep, StepDownStep, ResumeAppendStep;
    if !a.Timeout? && !a.ReturnVote? {
      OtherReigns(cfg, s, a);
    }
    match a
    case Timeout(id) => TimeoutVotes(cfg, s, id);
    case Heartbeats(id) => HeartbeatVotes(cfg, s, id);
    case Submit(id, command) => SubmitOrRejectVotes(cfg, s, id, command);
    case DeliverVote(req) => DeliverVoteVotes(cfg, s, req);
    case ResumeVote(req) => ResumeVoteVotes(cfg, s, req);
    case ReturnVote(reply) => ReturnVoteVotes(cfg, s, reply);
    case DeliverAppend(m) => DeliverAppendVotes(cfg, s, m);
    case ReturnAppend(r) => ReturnAppendVotes(cfg, s, r);
    case StepDown(m) => StepDownVotes(cfg, s, m);
    case ResumeAppend(p) => ResumeVotes(cfg, s, p);
  }

  lemma StepVoting(cfg: Config, s: Cluster, s': Cluster)
    requires Voting(cfg, s) && Waiting(s) && Step(cfg, s, s')
    ensures Voting(cfg, s') && ReignsStay(s, s')
  {
    hide Voting, Waiting, Next, Enabled, ReignsStay;
    var a :| Enabled(s, a) && s' == Next(cfg, s, a);
    NextVoting(cfg, s, a);
  }

  lemma StartVoting(cfg: Config, run: seq<Cluster>)
    requires ValidConfig(cfg) && IsRun(cfg, run)
    ensures Voting(cfg, run[0])
  {
  }

  lemma {:induction false} RunVoting(cfg: Config, run: seq<Cluster>, i: nat)
    requires ValidConfig(cfg) && IsRun(cfg, run) && i < |run|
    ensures Voting(cfg, run[i])
  {
    hide *;
    if i == 0 {
      StartVoting(cfg, run);
    } else {
      RunVoting(cfg, run, i - 1);
      RunWaiting(cfg, run, i - 1);
      RunStep(cfg, run, i - 1);
      StepVoting(cfg, run[i - 1], run[i]);
    }
  }

  lemma ReachableVoting(cfg: Config, s: Cluster)
    requires ValidConfig(cfg) && Reachable(cfg, s)
    ensures Voting(cfg, s)
  {
    hide Voting;
    var run :| IsRun(cfg, run) && run[|run| - 1] == s;
    RunVoting(cfg, run, |run| - 1);
  }

  lemma {:induction false} RunReigns(cfg: Config, run: seq<Cluster>, i: nat, j: nat)
    requires ValidConfig(cfg) && IsRun(cfg, run) && i <= j < |run|
    ensures ReignsStay(run[i], run[j])
    decreases j
  {
    hide Voting, Waiting, Step;
    if i < j {
      RunReigns(cfg, run, i, j - 1);
      RunVoting(cfg, run, j - 1);
      RunWaiting(cfg, run, j - 1);
      RunStep(cfg, run, j - 1);
      StepVoting(cfg, run[j - 1], run[j]);
    }
  }

  // ----- Two members -----

  lemma WholeQuorum(cfg: Config, b: set<Id>)
    requires IsQuorum(cfg, b) && |cfg.members| <= 2
    ensures b == cfg.members
  {
    assert cfg.members == b + (cfg.members - b);
  }

  /** In a cluster of two, whoever leads has the other's vote, so no request is ever of a
      later term than its receiver's. */
  lemma NoLaterRequest(cfg: Config, s: Cluster, m: AppendReq)
    requires Voting(cfg, s) && |cfg.members| <= 2 && m in s.appends
    ensures m.to in s.nodes && m.term <= s.nodes[m.to].currentTerm
  {
    assert FromLeader(s, m) && ReignVote(cfg, s, m.term);
    WholeQuorum(cfg, s.reigns[m.term].electors);
    assert TermId(m.term, m.to) in s.firstVote;
  }

  lemma StepNoneWaits(cfg: Config, s: Cluster, s': Cluster)
    requires Voting(cfg, s) && |cfg.members| <= 2 && s.parkedAppends == {} && Step(cfg, s, s')
    ensures s'.parkedAppends == {}
  {
    hide Voting, Next;
    var a :| Enabled(s, a) && s' == Next(cfg, s, a);
    if a.StepDown? {
      NoLaterRequest(cfg, s, a.areq);
      assert false;
    }
    ParkedAfter(cfg, s, a);
  }

  lemma {:induction false} RunNoneWaits(cfg: Config, run: seq<Cluster>, i: nat)
    requires ValidConfig(cfg) && |cfg.members| <= 2 && IsRun(cfg, run) && i < |run|
    ensures run[i].parkedAppends == {}
  {
    hide Voting, Step;
    if i > 0 {
      RunNoneWaits(cfg, run, i - 1);
      RunVoting(cfg, run, i - 1);
      RunStep(cfg, run, i - 1);
      StepNoneWaits(cfg, run[i - 1], run[i]);
    }
  }

  lemma TimelyAt(cfg: Config, s: Cluster, s': Cluster)
    requires Step(cfg, s, s') && (cfg.rechecksTerm || s.parkedAppends == {})
    ensures TimelyStep(cfg, s, s')
  {
    hide Next;
    var a :| Enabled(s, a) && s' == Next(cfg, s, a);
    assert InTime(cfg, s, a);
  }

  /** Where onAppendEntries looks at the term again, or nobody ever waits in it, no handler
      goes on late. */
  lemma SafeRunIsTimely(cfg: Config, run: seq<Cluster>)
    requires ValidConfig(cfg) && ResumeIsSafe(cfg) && IsRun(cfg, run)
    ensures IsTimelyRun(cfg, run)
  {
    hide Step, TimelyStep;
    forall i: nat | i + 1 < |run| ensures TimelyStepAt(cfg, run, i) {
      RunStep(cfg, run, i);
      if !cfg.rechecksTerm {
        RunNoneWaits(cfg, run, i);
      }
      TimelyAt(cfg, run[i], run[i + 1]);
    }
  }

  lemma SafeIsTimely(cfg: Config, s: Cluster)
    requires ValidConfig(cfg) && ResumeIsSafe(cfg) && Reachable(cfg, s)
    ensures TimelyReachable(cfg, s)
  {
    var run :| IsRun(cfg, run) && run[|run| - 1] == s;
    SafeRunIsTimely(cfg, run);
  }
}
