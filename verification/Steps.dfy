/**
 Every step of the cluster keeps Base: each handler is a chain of elementary changes.
 */
module Steps {
  import opened Commands
  import opened RaftTypes
  import opened LogMerge
  import opened Handlers
  import opened Clusters
  import opened Invariants
  import opened Growth
  import opened CrownMerge
  import opened VoteSteps
  import opened BaseSteps
  import opened Elections
  import opened Replications

  lemma GrowsTransitive(a: Cluster, b: Cluster, c: Cluster)
    requires Grows(a, b) && Grows(b, c)
    ensures Grows(a, c)
  {
    forall t | t in a.reigns ensures ReignGrows(a, c, t) {
      assert ReignGrows(a, b, t) && ReignGrows(b, c, t);
      PrefixTransitive(a.reigns[t].log, b.reigns[t].log, c.reigns[t].log);
    }
    forall t: nat, v: Id ensures AckGrows(a, c, t, v) {
      assert AckGrows(a, b, t, v) && AckGrows(b, c, t, v);
    }
  }

  lemma HeartbeatTouches(me: Member, n: Node)
    requires InRange(n)
    ensures InRange(HeartbeatNode(me, n)) && TouchesCommit(n, HeartbeatNode(me, n))
  {
    ApplyTouches(me, n);
  }

  lemma SetNodeTwice(s: Cluster, v: Id, a: Node, b: Node)
    ensures SetNode(SetNode(s, v, a), v, b) == SetNode(s, v, b)
  {
    assert s.nodes[v := a][v := b] == s.nodes[v := b];
  }

  lemma SetNodeSame(s: Cluster, v: Id)
    requires v in s.nodes
    ensures SetNode(s, v, s.nodes[v]) == s
  {
    assert s.nodes[v := s.nodes[v]] == s.nodes;
  }

  /** A crown depends on the term and the log only. */
  lemma CrownSame(s: Cluster, c: Id, l: Node, h: Node)
    requires l.currentTerm == h.currentTerm && l.log == h.log
    ensures SetNode(Crown(SetNode(s, c, l), c), c, h) == Crown(SetNode(s, c, h), c)
  {
    SetNodeTwice(s, c, l, h);
  }

  // ----- Timeout -----

  /** becomeLeaderInternal on a node that does not lead. */
  lemma LeaderIs(cfg: Config, n: Node, v: Id, won: bool)
    requires InRange(n) && n.role != Leader
    ensures InRange(LeaderRecord(cfg, n, v, won))
    ensures BecomeLeader(Self(cfg, v), n.(won := won)) == HeartbeatNode(Self(cfg, v), LeaderRecord(cfg, n, v, won))
    ensures HeartbeatNode(Self(cfg, v), LeaderRecord(cfg, n, v, won)).role == Leader
  {
    HeartbeatTouches(Self(cfg, v), LeaderRecord(cfg, n, v, won));
    hide HeartbeatNode;
  }

  /** The node's record as an election starts. */
  lemma StartedReply(cfg: Config, n: Node, v: Id)
    requires InRange(n)
    ensures var c := n.(role := Candidate, currentTerm := n.currentTerm + 1, votedFor := v, votes := 1, won := false);
            var h := StartElection(Self(cfg, v), n);
            && InRange(LeaderRecord(cfg, c, v, false))
            && h.currentTerm == c.currentTerm && h.log == c.log
            && (h.role == Leader <==> 1 >= Majority(Self(cfg, v)))
            && h == if 1 >= Majority(Self(cfg, v)) then HeartbeatNode(Self(cfg, v), LeaderRecord(cfg, c, v, false)) else c
  {
    var c := n.(role := Candidate, currentTerm := n.currentTerm + 1, votedFor := v, votes := 1, won := false);
    assert c == c.(won := false);
    LeaderIs(cfg, c, v, false);
    LeaderTouches(cfg, c, v, false);
    hide HeartbeatNode, Majority, BecomeLeader, LeaderRecord;
  }

  lemma LeaderTouches(cfg: Config, n: Node, v: Id, won: bool)
    requires InRange(n)
    ensures InRange(LeaderRecord(cfg, n, v, won))
    ensures var h := HeartbeatNode(Self(cfg, v), LeaderRecord(cfg, n, v, won));
            h.currentTerm == n.currentTerm && h.log == n.log
  {
    HeartbeatTouches(Self(cfg, v), LeaderRecord(cfg, n, v, won));
    hide HeartbeatNode;
  }

  /** A timeout, whatever startElection makes of the node. */
  lemma TimedOutIs(cfg: Config, s: Cluster, v: Id)
    requires v in s.nodes && InRange(s.nodes[v]) && s.nodes[v].role != Leader
    ensures
      var h := StartElection(Self(cfg, v), s.nodes[v]);
      var started := SetNode(Campaign(cfg, s, v), v, h);
      TimeoutStep(cfg, s, v) == if h.role == Leader then Crown(started, v) else started
  {
    StartedReply(cfg, s.nodes[v], v);
    var h := StartElection(Self(cfg, v), s.nodes[v]);
    hide StartElection, HeartbeatNode, Majority, InRange, Canvass;
    assert s.nodes[v := h] == SetNode(Campaign(cfg, s, v), v, h).nodes;
  }

  lemma CampaignerIs(cfg: Config, s: Cluster, v: Id)
    requires v in s.nodes
    ensures v in Campaign(cfg, s, v).nodes
    ensures var n := s.nodes[v];
            Campaign(cfg, s, v).nodes[v] ==
            n.(role := Candidate, currentTerm := n.currentTerm + 1, votedFor := v, votes := 1, won := false)
  {
    hide Canvass;
  }

  lemma TimeoutIs(cfg: Config, s: Cluster, v: Id)
    requires v in s.nodes && InRange(s.nodes[v]) && s.nodes[v].role != Leader
    ensures
      var started := Campaign(cfg, s, v);
      var c := started.nodes[v];
      TimeoutStep(cfg, s, v) ==
      if 1 >= Majority(Self(cfg, v))
      then SetNode(Win(cfg, started, v, false), v, HeartbeatNode(Self(cfg, v), LeaderRecord(cfg, c, v, false)))
      else started
  {
    hide TimeoutStep, Campaign, StartElection, Crown, HeartbeatNode, LeaderRecord, Majority, SetNode;
    CampaignerIs(cfg, s, v);
    var started := Campaign(cfg, s, v);
    StartedReply(cfg, s.nodes[v], v);
    var l := LeaderRecord(cfg, started.nodes[v], v, false);
    HeartbeatTouches(Self(cfg, v), l);
    TimedOutIs(cfg, s, v);
    CrownSame(started, v, l, HeartbeatNode(Self(cfg, v), l));
    SetNodeSame(started, v);
  }

  // ----- Heartbeats and commands -----

  lemma HeartbeatBase(cfg: Config, s: Cluster, v: Id)
    requires Base(cfg, s) && v in s.nodes && InRange(s.nodes[v])
    ensures Base(cfg, HeartbeatStep(cfg, s, v)) && Grows(s, HeartbeatStep(cfg, s, v))
  {
    var sent := Send(cfg, s, v);
    SendBase(cfg, s, v);
    HeartbeatTouches(Self(cfg, v), s.nodes[v]);
    TouchBase(cfg, sent, v, HeartbeatNode(Self(cfg, v), s.nodes[v]));
    GrowsTransitive(s, sent, HeartbeatStep(cfg, s, v));
  }

  lemma SubmitTouches(me: Member, n: Node, command: Command)
    requires InRange(n) && n.role == Leader
    ensures
      var longer := n.(log := n.log + [Entry(n.currentTerm, command)]);
      var outcome := SubmitCommand(me, n, command);
      outcome.accepted && InRange(longer) && TouchesCommit(longer, outcome.node) && InRange(outcome.node)
  {
    var longer := n.(log := n.log + [Entry(n.currentTerm, command)]);
    HeartbeatTouches(me, longer);
    ApplyTouches(me, HeartbeatNode(me, longer));
  }

  lemma SubmitIs(cfg: Config, s: Cluster, v: Id, command: Command)
    requires v in s.nodes && InRange(s.nodes[v]) && s.nodes[v].role == Leader && s.nodes[v].currentTerm in s.reigns
    ensures SubmitStep(cfg, s, v, command) ==
            Send(cfg, SetNode(Lengthen(s, v, Entry(s.nodes[v].currentTerm, command)), v,
                              SubmitCommand(Self(cfg, v), s.nodes[v], command).node), v)
  {
    var longer := Lengthen(s, v, Entry(s.nodes[v].currentTerm, command));
    var n := SubmitCommand(Self(cfg, v), s.nodes[v], command).node;
    SubmitTouches(Self(cfg, v), s.nodes[v], command);
    assert s.nodes[v := n] == longer.nodes[v := n];
  }

  lemma SubmitAppends(cfg: Config, s: Cluster, v: Id, command: Command)
    requires Base(cfg, s) && v in s.nodes && InRange(s.nodes[v]) && s.nodes[v].role == Leader
    ensures s.nodes[v].currentTerm in s.reigns
    ensures var s' := SetNode(Lengthen(s, v, Entry(s.nodes[v].currentTerm, command)), v,
                              SubmitCommand(Self(cfg, v), s.nodes[v], command).node);
            Base(cfg, s') && Grows(s, s')
  {
    var e := Entry(s.nodes[v].currentTerm, command);
    LengthenBase(cfg, s, v, e);
    var longer := Lengthen(s, v, e);
    var n := SubmitCommand(Self(cfg, v), s.nodes[v], command).node;
    SubmitTouches(Self(cfg, v), s.nodes[v], command);
    TouchBase(cfg, longer, v, n);
    GrowsTransitive(s, longer, SetNode(longer, v, n));
  }

  lemma SubmitBase(cfg: Config, s: Cluster, v: Id, command: Command)
    requires Base(cfg, s) && v in s.nodes && InRange(s.nodes[v]) && s.nodes[v].role == Leader
    ensures Base(cfg, SubmitStep(cfg, s, v, command)) && Grows(s, SubmitStep(cfg, s, v, command))
  {
    SubmitAppends(cfg, s, v, command);
    var s' := SetNode(Lengthen(s, v, Entry(s.nodes[v].currentTerm, command)), v,
                      SubmitCommand(Self(cfg, v), s.nodes[v], command).node);
    SendBase(cfg, s', v);
    SubmitIs(cfg, s, v, command);
    GrowsTransitive(s, s', SubmitStep(cfg, s, v, command));
  }

  // ----- Votes -----

  lemma DeliverHigherIs(s: Cluster, req: VoteReq)
    requires req.to in s.nodes && req.term > s.nodes[req.to].currentTerm
    ensures
      var down := SetNode(s, req.to, BecomeFollower(s.nodes[req.to], req.term));
      DeliverVoteStep(s, req) ==
      if ReleasesLock(s.nodes[req.to], req) then down.(parked := down.parked + {req})
      else RecordVote(down, DecideVote(down.nodes[req.to], req))
  {
    var down := SetNode(s, req.to, BecomeFollower(s.nodes[req.to], req.term));
    var m := DecideVote(down.nodes[req.to], req).node;
    assert s.nodes[req.to := m] == down.nodes[req.to := m];
  }

  lemma DeliverHigher(cfg: Config, s: Cluster, req: VoteReq)
    requires Base(cfg, s) && req in s.voteReqs && req.to in s.nodes && req.term > s.nodes[req.to].currentTerm
    ensures Base(cfg, DeliverVoteStep(s, req)) && Grows(s, DeliverVoteStep(s, req))
  {
    var down := SetNode(s, req.to, BecomeFollower(s.nodes[req.to], req.term));
    DeliverHigherIs(s, req);
    StepDownBase(cfg, s, req.to, req.term);
    if ReleasesLock(s.nodes[req.to], req) {
      ParkBase(cfg, down, req);
    } else {
      DecideBase(cfg, down, req);
    }
    GrowsTransitive(s, down, DeliverVoteStep(s, req));
  }

  lemma DeliverOtherIs(s: Cluster, req: VoteReq)
    requires req.to in s.nodes && req.term <= s.nodes[req.to].currentTerm
    ensures DeliverVoteStep(s, req) ==
            if req.term < s.nodes[req.to].currentTerm then Deny(s, req)
            else RecordVote(s, DecideVote(s.nodes[req.to], req))
  {
  }

  lemma DeliverVoteBase(cfg: Config, s: Cluster, req: VoteReq)
    requires Base(cfg, s) && req in s.voteReqs && req.to in s.nodes
    ensures Base(cfg, DeliverVoteStep(s, req)) && Grows(s, DeliverVoteStep(s, req))
  {
    if req.term > s.nodes[req.to].currentTerm {
      DeliverHigher(cfg, s, req);
    } else {
      DeliverOtherIs(s, req);
      if req.term < s.nodes[req.to].currentTerm {
        DenyBase(cfg, s, req);
      } else {
        DecideBase(cfg, s, req);
      }
    }
  }

  lemma ResumeVoteBase(cfg: Config, s: Cluster, req: VoteReq)
    requires Base(cfg, s) && req in s.parked && req.to in s.nodes
    ensures Base(cfg, ResumeVoteStep(s, req)) && Grows(s, ResumeVoteStep(s, req))
  {
    assert ParkedOk(s, req);
    hide Base, Grows;
    DecideBase(cfg, s, req);
    DecidedHas(s, req);
    FinishBase(cfg, Decided(s, req), req.to, s.parked - {req}, s.parkedAppends);
    GrowsTransitive(s, Decided(s, req), ResumeVoteStep(s, req));
  }

  lemma DecidedHas(s: Cluster, req: VoteReq)
    requires req.to in s.nodes
    ensures req.to in Decided(s, req).nodes && Decided(s, req).parked == s.parked
    ensures Decided(s, req).parkedAppends == s.parkedAppends
  {
    hide DecideVote;
  }

  lemma ReturnUncountedIs(cfg: Config, s: Cluster, reply: VoteReply)
    requires reply.req.candidate in s.nodes && InRange(s.nodes[reply.req.candidate])
    requires !CountsVote(s.nodes[reply.req.candidate], reply)
    ensures
      var c := reply.req.candidate;
      var n := s.nodes[c];
      var s' := if reply.term > n.currentTerm then SetNode(s, c, BecomeFollower(n, reply.term)) else s;
      ReturnVoteStep(cfg, s, reply) == s'.(returned := s'.returned + {CallOf(reply.req)})
  {
    var c := reply.req.candidate;
    assert s.nodes[c := s.nodes[c]] == s.nodes;
  }

  lemma ReturnUncounted(cfg: Config, s: Cluster, reply: VoteReply)
    requires Base(cfg, s) && reply.req.candidate in s.nodes && InRange(s.nodes[reply.req.candidate])
    requires !CountsVote(s.nodes[reply.req.candidate], reply)
    ensures Base(cfg, ReturnVoteStep(cfg, s, reply)) && Grows(s, ReturnVoteStep(cfg, s, reply))
  {
    var c := reply.req.candidate;
    ReturnUncountedIs(cfg, s, reply);
    if reply.term > s.nodes[c].currentTerm {
      StepDownBase(cfg, s, c, reply.term);
      var down := SetNode(s, c, BecomeFollower(s.nodes[c], reply.term));
      ReturnedBase(cfg, down, c, CallOf(reply.req));
      GrowsTransitive(s, down, ReturnVoteStep(cfg, s, reply));
    } else {
      ReturnedBase(cfg, s, c, CallOf(reply.req));
    }
  }

  /** What the reply makes of the candidate. */
  lemma CountedReply(cfg: Config, n: Node, c: Id, reply: VoteReply)
    requires InRange(n) && CountsVote(n, reply) && !n.won
    ensures var k := n.(votes := n.votes + 1);
            && InRange(LeaderRecord(cfg, k, c, true))
            && HeartbeatNode(Self(cfg, c), LeaderRecord(cfg, k, c, true)).role == Leader
            && OnVoteReply(Self(cfg, c), n, reply) ==
               if k.votes >= Majority(Self(cfg, c))
               then HeartbeatNode(Self(cfg, c), LeaderRecord(cfg, k, c, true)) else k
  {
    LeaderIs(cfg, n.(votes := n.votes + 1), c, true);
    hide HeartbeatNode, Majority, BecomeLeader, LeaderRecord;
  }

  lemma CountedIs(s: Cluster, reply: VoteReply)
    requires Countable(s, reply)
    ensures reply.req.candidate in Count(s, reply).nodes
    ensures Count(s, reply).nodes[reply.req.candidate] ==
            s.nodes[reply.req.candidate].(votes := s.nodes[reply.req.candidate].votes + 1)
  {
  }

  /** A counted reply, whatever the callback makes of the candidate. */
  lemma ReturnedIs(cfg: Config, s: Cluster, reply: VoteReply)
    requires Countable(s, reply) && InRange(s.nodes[reply.req.candidate])
    ensures
      var c := reply.req.candidate;
      var h := OnVoteReply(Self(cfg, c), s.nodes[c], reply);
      var heard := SetNode(Count(s, reply), c, h);
      ReturnVoteStep(cfg, s, reply) == if h.role == Leader then Send(cfg, Crown(heard, c), c) else heard
  {
    hide OnVoteReply, Broadcast;
    var c := reply.req.candidate;
    var h := OnVoteReply(Self(cfg, c), s.nodes[c], reply);
    SetNodeTwice(s, c, Count(s, reply).nodes[c], h);
    assert s.nodes[c := h] == SetNode(Count(s, reply), c, h).nodes;
  }

  lemma ReturnCountedIs(cfg: Config, s: Cluster, reply: VoteReply)
    requires Countable(s, reply) && InRange(s.nodes[reply.req.candidate]) && !s.nodes[reply.req.candidate].won
    ensures
      var c := reply.req.candidate;
      var counted := Count(s, reply);
      ReturnVoteStep(cfg, s, reply) ==
      if counted.nodes[c].votes >= Majority(Self(cfg, c))
      then Send(cfg, SetNode(Win(cfg, counted, c, true), c,
                             HeartbeatNode(Self(cfg, c), LeaderRecord(cfg, counted.nodes[c], c, true))), c)
      else counted
  {
    var c := reply.req.candidate;
    CountedIs(s, reply);
    CountedReply(cfg, s.nodes[c], c, reply);
    var counted := Count(s, reply);
    var l := LeaderRecord(cfg, counted.nodes[c], c, true);
    HeartbeatTouches(Self(cfg, c), l);
    hide ReturnVoteStep, OnVoteReply, Count, Crown, Send, HeartbeatNode, LeaderRecord, Majority, InRange, SetNode;
    ReturnedIs(cfg, s, reply);
    CrownSame(counted, c, l, HeartbeatNode(Self(cfg, c), l));
    SetNodeSame(counted, c);
  }

  lemma WonIs(cfg: Config, s: Cluster, c: Id, won: bool)
    requires c in s.nodes && InRange(s.nodes[c])
    ensures c in Win(cfg, s, c, won).nodes && Win(cfg, s, c, won).nodes[c] == LeaderRecord(cfg, s.nodes[c], c, won)
    ensures InRange(LeaderRecord(cfg, s.nodes[c], c, won))
  {
  }

  /** The winner, when its first heartbeats have gone out. */
  function Led(cfg: Config, s: Cluster, c: Id, won: bool): Cluster
    requires c in s.nodes && InRange(s.nodes[c])
  {
    SetNode(Win(cfg, s, c, won), c, HeartbeatNode(Self(cfg, c), LeaderRecord(cfg, s.nodes[c], c, won)))
  }

  lemma LedIs(cfg: Config, s: Cluster, c: Id, won: bool)
    requires c in s.nodes && InRange(s.nodes[c]) && InRange(LeaderRecord(cfg, s.nodes[c], c, won))
    ensures c in Led(cfg, s, c, won).nodes
    ensures Led(cfg, s, c, won) ==
            SetNode(Win(cfg, s, c, won), c, HeartbeatNode(Self(cfg, c), LeaderRecord(cfg, s.nodes[c], c, won)))
  {
    hide HeartbeatNode;
  }

  lemma LedBase(cfg: Config, s: Cluster, elected: Cluster, c: Id, won: bool)
    requires Base(cfg, elected) && Grows(s, elected) && Elected(cfg, elected, c) && c in elected.nodes
    requires InRange(elected.nodes[c])
    ensures Base(cfg, Led(cfg, elected, c, won)) && Grows(s, Led(cfg, elected, c, won))
  {
    hide *;
    var l := LeaderRecord(cfg, elected.nodes[c], c, won);
    WonIs(cfg, elected, c, won);
    WinBase(cfg, elected, c, won);
    LedIs(cfg, elected, c, won);
    HeartbeatTouches(Self(cfg, c), l);
    TouchBase(cfg, Win(cfg, elected, c, won), c, HeartbeatNode(Self(cfg, c), l));
    GrowsTransitive(s, elected, Win(cfg, elected, c, won));
    GrowsTransitive(s, Win(cfg, elected, c, won), Led(cfg, elected, c, won));
  }

  /** The winner's first heartbeats. */
  lemma WonBase(cfg: Config, s: Cluster, counted: Cluster, c: Id)
    requires Base(cfg, counted) && Grows(s, counted) && Elected(cfg, counted, c) && c in counted.nodes
    requires InRange(counted.nodes[c])
    ensures InRange(LeaderRecord(cfg, counted.nodes[c], c, true))
    ensures var s' := Send(cfg, SetNode(Win(cfg, counted, c, true), c,
                                        HeartbeatNode(Self(cfg, c), LeaderRecord(cfg, counted.nodes[c], c, true))), c);
            Base(cfg, s') && Grows(s, s')
  {
    hide *;
    WonIs(cfg, counted, c, true);
    LedBase(cfg, s, counted, c, true);
    LedIs(cfg, counted, c, true);
    SendBase(cfg, Led(cfg, counted, c, true), c);
    GrowsTransitive(s, Led(cfg, counted, c, true), Send(cfg, Led(cfg, counted, c, true), c));
  }

  lemma CampaignAlone(cfg: Config, s: Cluster, v: Id)
    requires v in s.nodes && InRange(s.nodes[v]) && v in cfg.members
    ensures Campaign(cfg, s, v).reigns == s.reigns
    ensures v in Campaign(cfg, s, v).nodes && InRange(Campaign(cfg, s, v).nodes[v])
    ensures 1 >= Majority(Self(cfg, v)) ==> Elected(cfg, Campaign(cfg, s, v), v)
  {
    SelfMajority(cfg, v);
  }

  lemma TimeoutBase(cfg: Config, s: Cluster, v: Id)
    requires Base(cfg, s) && v in s.nodes && InRange(s.nodes[v]) && s.nodes[v].role != Leader
    ensures Base(cfg, TimeoutStep(cfg, s, v)) && Grows(s, TimeoutStep(cfg, s, v))
  {
    assert v in cfg.members;
    hide *;
    TimeoutIs(cfg, s, v);
    CampaignBase(cfg, s, v);
    CampaignAlone(cfg, s, v);
    if 1 >= Majority(Self(cfg, v)) {
      WonIs(cfg, Campaign(cfg, s, v), v, false);
      LedIs(cfg, Campaign(cfg, s, v), v, false);
      LedBase(cfg, s, Campaign(cfg, s, v), v, false);
    }
  }

  lemma CountedElects(cfg: Config, s: Cluster, reply: VoteReply)
    requires Countable(s, reply) && InRange(s.nodes[reply.req.candidate])
    ensures reply.req.candidate in Count(s, reply).nodes && InRange(Count(s, reply).nodes[reply.req.candidate])
    ensures Count(s, reply).nodes[reply.req.candidate].role == Candidate
    ensures Count(s, reply).nodes[reply.req.candidate].votes == s.nodes[reply.req.candidate].votes + 1
  {
  }

  lemma ReturnCounted(cfg: Config, s: Cluster, reply: VoteReply)
    requires Base(cfg, s) && Countable(s, reply) && InRange(s.nodes[reply.req.candidate])
    ensures Base(cfg, ReturnVoteStep(cfg, s, reply)) && Grows(s, ReturnVoteStep(cfg, s, reply))
  {
    var c := reply.req.candidate;
    assert !s.nodes[c].won by { assert NodeVote(s, c); }
    SelfMajority(cfg, c);
    hide Base, Grows, ReturnVoteStep, Count, Win, HeartbeatNode, LeaderRecord, Send, InRange, Majority;
    ReturnCountedIs(cfg, s, reply);
    CountBase(cfg, s, reply);
    CountedElects(cfg, s, reply);
    if Count(s, reply).nodes[c].votes >= Majority(Self(cfg, c)) {
      WonBase(cfg, s, Count(s, reply), c);
    }
  }

  lemma ReturnVoteBase(cfg: Config, s: Cluster, reply: VoteReply)
    requires Base(cfg, s) && reply in s.voteReplies && CallOf(reply.req) !in s.returned
    requires reply.req.candidate in s.nodes && InRange(s.nodes[reply.req.candidate])
    ensures Base(cfg, ReturnVoteStep(cfg, s, reply)) && Grows(s, ReturnVoteStep(cfg, s, reply))
  {
    if CountsVote(s.nodes[reply.req.candidate], reply) {
      assert NodeVote(s, reply.req.candidate);
      ReturnCounted(cfg, s, reply);
    } else {
      ReturnUncounted(cfg, s, reply);
    }
  }

  // ----- AppendEntries -----

  /** No AppendEntries of its own term ever reaches a leader: the split-brain branch is dead. */
  lemma NoSplitBrain(s: Cluster, m: AppendReq)
    requires NodeVotes(s) && AppendOk(s, m)
    ensures s.nodes[m.to].role == Leader ==> s.nodes[m.to].currentTerm != m.term
  {
    assert NodeVote(s, m.to);
  }

  /** The node as it stands when the request reaches its log. */
  function Recognised(s: Cluster, m: AppendReq): Cluster
    requires m.to in s.nodes
  {
    SetNode(s, m.to, Recognise(s.nodes[m.to], m))
  }

  lemma RecognisedNode(s: Cluster, m: AppendReq)
    requires NodeVotes(s) && AppendOk(s, m) && m.term >= s.nodes[m.to].currentTerm
    ensures var n := Recognised(s, m).nodes[m.to];
            n.role == Follower && n.currentTerm == m.term && n.log == s.nodes[m.to].log
    ensures m.term == s.nodes[m.to].currentTerm && s.nodes[m.to].role == Follower ==> Recognised(s, m) == s
    ensures m.term == s.nodes[m.to].currentTerm && s.nodes[m.to].role != Follower ==>
              && s.nodes[m.to].role == Candidate
              && Recognised(s, m) == SetNode(s, m.to, BecomeFollower(s.nodes[m.to], s.nodes[m.to].currentTerm))
    ensures m.term in s.reigns && s.reigns[m.term].leader != m.to
  {
    NoSplitBrain(s, m);
    assert s.nodes[m.to := s.nodes[m.to]] == s.nodes;
  }

  /** The three ways in which a node can stand before the log of a request. */
  lemma RecognisedIs(s: Cluster, m: AppendReq)
    requires m.to in s.nodes && m.term >= s.nodes[m.to].currentTerm
    ensures var n := s.nodes[m.to];
            Recognised(s, m) ==
            if m.term > n.currentTerm then SetNode(s, m.to, BecomeFollower(n, m.term))
            else if n.role != Follower then SetNode(s, m.to, BecomeFollower(n, n.currentTerm)) else s
  {
    assert s.nodes[m.to := s.nodes[m.to]] == s.nodes;
  }

  lemma BaseNodeVotes(cfg: Config, s: Cluster)
    requires Base(cfg, s)
    ensures NodeVotes(s)
  {
  }

  lemma RecogniseBase(cfg: Config, s: Cluster, m: AppendReq)
    requires Base(cfg, s) && AppendOk(s, m) && m.term >= s.nodes[m.to].currentTerm
    ensures Base(cfg, Recognised(s, m)) && Grows(s, Recognised(s, m))
  {
    AppendTo(s, m);
    hide *;
    BaseNodeVotes(cfg, s);
    RecognisedNode(s, m);
    RecognisedIs(s, m);
    if m.term > s.nodes[m.to].currentTerm {
      StepDownBase(cfg, s, m.to, m.term);
    } else if s.nodes[m.to].role == Candidate {
      ResignBase(cfg, s, m.to);
    } else {
      GrowsReflexive(s);
    }
  }

  lemma AppendTo(s: Cluster, m: AppendReq)
    requires AppendOk(s, m)
    ensures m.to in s.nodes
  {
  }

  lemma GrowsReflexive(s: Cluster)
    ensures Grows(s, s)
  {
    forall t: nat, v: Id ensures AckGrows(s, s, t, v) {}
  }

  /** A request of the follower's own term that passes the consistency check. */
  ghost predicate Storable(s: Cluster, m: AppendReq) {
    && AppendOk(s, m)
    && s.nodes[m.to].role == Follower && s.nodes[m.to].currentTerm == m.term
    && PrevMatches(s.nodes[m.to].log, m)
  }

  lemma StoreMerges(s: Cluster, m: AppendReq)
    requires Storable(s, m) && NodeLog(s, m.to) && ReignLog(s.reigns, m.term)
    ensures Keepable(s, m.to, m.End(), Merge(s.nodes[m.to].log, m.First(), m.entries))
    ensures m.entries != [] ==> Merge(s.nodes[m.to].log, m.First(), m.entries) <= s.reigns[m.term].log
    ensures s.nodes[m.to].log[..m.First()] == s.reigns[m.term].log[..m.First()]
  {
    var x := s.nodes[m.to].log;
    var ll := s.reigns[m.term].log;
    MergeOfLeader(s.reigns, x, ll, m.First(), m.End());
    if m.entries != [] {
      StoredFollows(x, ll, m.First(), m.End(), Merge(x, m.First(), m.entries));
    }
  }

  function Stored(s: Cluster, m: AppendReq): Cluster
    requires m.to in s.nodes && m.First() <= |s.nodes[m.to].log|
  {
    Keep(s, m.to, m.End(), Merge(s.nodes[m.to].log, m.First(), m.entries))
  }

  lemma StoredReply(s: Cluster, m: AppendReq)
    requires m in s.appends && Storable(s, m) && NodeLog(s, m.to) && ReignLog(s.reigns, m.term)
    ensures AppendReplyOk(Stored(s, m), AppendReply(m, m.term, true, None))
  {
    StoreMerges(s, m);
  }

  lemma StoredBase(cfg: Config, s: Cluster, m: AppendReq)
    requires Base(cfg, s) && m in s.appends && Storable(s, m)
    ensures Base(cfg, Stored(s, m)) && Grows(s, Stored(s, m))
    ensures AppendReplyOk(Stored(s, m), AppendReply(m, m.term, true, None))
  {
    assert NodeLog(s, m.to) && ReignLog(s.reigns, m.term);
    StoreMerges(s, m);
    StoredReply(s, m);
    KeepBase(cfg, s, m.to, m.End(), Merge(s.nodes[m.to].log, m.First(), m.entries));
  }

  lemma StoreTouches(me: Member, n: Node, m: AppendReq)
    requires -1 <= n.lastApplied && -1 <= n.commitIndex && PrevMatches(n.log, m)
    ensures m.First() <= |n.log|
    ensures TouchesCommit(n.(log := Merge(n.log, m.First(), m.entries)), Store(me, n, m))
  {
    var merged := n.(log := Merge(n.log, m.First(), m.entries));
    if m.leaderCommit > n.commitIndex {
      ApplyTouches(me, merged.(commitIndex := Min(m.leaderCommit, |merged.log| - 1)));
    }
  }

  lemma AcceptIs(cfg: Config, s: Cluster, f: Cluster, m: AppendReq)
    requires m.to in s.nodes && InRange(s.nodes[m.to])
    requires m.term >= s.nodes[m.to].currentTerm && !SplitBrain(Self(cfg, m.to), s.nodes[m.to], m)
    requires f == SetNode(s, m.to, Recognise(s.nodes[m.to], m)) && f.nodes[m.to].currentTerm == m.term
    requires PrevMatches(f.nodes[m.to].log, m)
    ensures m.First() <= |f.nodes[m.to].log|
    ensures
      var kept := SetNode(Stored(f, m), m.to, Store(Self(cfg, m.to), f.nodes[m.to], m));
      DeliverAppendStep(cfg, s, m) == kept.(appendReplies := kept.appendReplies + {AppendReply(m, m.term, true, None)})
  {
    var v := m.to;
    StoreTouches(Self(cfg, v), f.nodes[v], m);
    var n := Store(Self(cfg, v), f.nodes[v], m);
    assert s.nodes[v := n] == Stored(f, m).nodes[v := n];
  }

  lemma AcceptBase(cfg: Config, s: Cluster, f: Cluster, m: AppendReq)
    requires Base(cfg, f) && m in f.appends && Storable(f, m) && Grows(s, f)
    requires m.to in s.nodes && InRange(s.nodes[m.to])
    requires m.term >= s.nodes[m.to].currentTerm && !SplitBrain(Self(cfg, m.to), s.nodes[m.to], m)
    requires f == SetNode(s, m.to, Recognise(s.nodes[m.to], m))
    ensures Base(cfg, DeliverAppendStep(cfg, s, m)) && Grows(s, DeliverAppendStep(cfg, s, m))
  {
    hide Grows, Store, Base, DeliverAppendStep;
    var v := m.to;
    AcceptIs(cfg, s, f, m);
    var merged := Stored(f, m);
    var n := Store(Self(cfg, v), f.nodes[v], m);
    var kept := SetNode(merged, v, n);
    var r := AppendReply(m, m.term, true, None);
    StoredBase(cfg, f, m);
    StoreTouches(Self(cfg, v), f.nodes[v], m);
    TouchBase(cfg, merged, v, n);
    TouchReply(merged, v, n, r);
    ReplyBase(cfg, kept, r, v);
    GrowsTransitive(s, f, merged);
    GrowsTransitive(s, merged, kept);
    GrowsTransitive(s, kept, DeliverAppendStep(cfg, s, m));
  }

  lemma TouchReply(s: Cluster, v: Id, n: Node, r: AppendReply)
    requires v in s.nodes && TouchesCommit(s.nodes[v], n) && AppendReplyOk(s, r)
    ensures AppendReplyOk(SetNode(s, v, n), r)
  {
  }

  /** The reply that asks the leader to back up. */
  function Refusal(f: Cluster, m: AppendReq, term: nat): AppendReply
    requires m.to in f.nodes && m.prevLogIndex >= 0
  {
    var at: nat := Min(m.prevLogIndex, |f.nodes[m.to].log|);
    AppendReply(m, term, false, Some(at))
  }

  lemma ConflictReply(f: Cluster, m: AppendReq, term: nat)
    requires AppendOk(f, m) && m in f.appends && f.nodes[m.to].currentTerm == m.term
    requires !PrevMatches(f.nodes[m.to].log, m)
    ensures AppendReplyOk(f, Refusal(f, m, term))
  {
    ConflictParts(f.nodes[m.to].log, f.reigns[m.term].log, m.prevLogIndex);
  }

  lemma StaleReply(s: Cluster, m: AppendReq)
    requires AppendOk(s, m) && m in s.appends && s.nodes[m.to].currentTerm > m.term
    ensures AppendReplyOk(s, AppendReply(m, s.nodes[m.to].currentTerm, false, None))
  {
  }

  lemma StaleIs(cfg: Config, s: Cluster, m: AppendReq)
    requires m.to in s.nodes && InRange(s.nodes[m.to]) && m.term < s.nodes[m.to].currentTerm
    ensures DeliverAppendStep(cfg, s, m) ==
            s.(appendReplies := s.appendReplies + {AppendReply(m, s.nodes[m.to].currentTerm, false, None)})
  {
    assert s.nodes[m.to := s.nodes[m.to]] == s.nodes;
  }

  lemma ConflictIs(cfg: Config, s: Cluster, m: AppendReq)
    requires m.to in s.nodes && InRange(s.nodes[m.to])
    requires m.term >= s.nodes[m.to].currentTerm && !SplitBrain(Self(cfg, m.to), s.nodes[m.to], m)
    requires !PrevMatches(Recognised(s, m).nodes[m.to].log, m)
    ensures m.prevLogIndex >= 0
    ensures
      var f := Recognised(s, m);
      DeliverAppendStep(cfg, s, m) ==
      f.(appendReplies := f.appendReplies + {Refusal(f, m, s.nodes[m.to].currentTerm)})
  {
  }

  lemma DeliverConflict(cfg: Config, s: Cluster, f: Cluster, m: AppendReq)
    requires m.to in s.nodes && InRange(s.nodes[m.to]) && f == Recognised(s, m)
    requires m.term >= s.nodes[m.to].currentTerm && !SplitBrain(Self(cfg, m.to), s.nodes[m.to], m)
    requires Base(cfg, f) && Grows(s, f)
    requires m in f.appends && AppendOk(f, m) && f.nodes[m.to].currentTerm == m.term
    requires !PrevMatches(f.nodes[m.to].log, m)
    ensures Base(cfg, DeliverAppendStep(cfg, s, m)) && Grows(s, DeliverAppendStep(cfg, s, m))
  {
    var r := Refusal(f, m, s.nodes[m.to].currentTerm);
    ConflictReply(f, m, s.nodes[m.to].currentTerm);
    ReplyBase(cfg, f, r, m.to);
    ConflictIs(cfg, s, m);
    GrowsTransitive(s, f, f.(appendReplies := f.appendReplies + {r}));
  }

  lemma SentIsOk(cfg: Config, s: Cluster, m: AppendReq)
    requires Messages(s) && m in s.appends
    ensures AppendOk(s, m)
  {
  }

  lemma DeliverAppendBase(cfg: Config, s: Cluster, m: AppendReq)
    requires Base(cfg, s) && m in s.appends && m.to in s.nodes && InRange(s.nodes[m.to])
    ensures Base(cfg, DeliverAppendStep(cfg, s, m)) && Grows(s, DeliverAppendStep(cfg, s, m))
  {
    SentIsOk(cfg, s, m);
    if m.term < s.nodes[m.to].currentTerm {
      StaleIs(cfg, s, m);
      ReplyBase(cfg, s, AppendReply(m, s.nodes[m.to].currentTerm, false, None), m.to);
    } else {
      DeliverCurrent(cfg, s, m);
    }
  }

  lemma RecognisedSent(s: Cluster, m: AppendReq)
    requires m in s.appends && m.to in s.nodes
    ensures m in Recognised(s, m).appends && m.to in Recognised(s, m).nodes
    ensures Recognised(s, m) == SetNode(s, m.to, Recognise(s.nodes[m.to], m))
  {
  }

  lemma RecognisedStorable(cfg: Config, s: Cluster, m: AppendReq)
    requires NodeVotes(s) && AppendOk(s, m) && m.term >= s.nodes[m.to].currentTerm
    requires AppendOk(Recognised(s, m), m)
    ensures !SplitBrain(Self(cfg, m.to), s.nodes[m.to], m)
    ensures Recognised(s, m).nodes[m.to].currentTerm == m.term
    ensures PrevMatches(Recognised(s, m).nodes[m.to].log, m) ==> Storable(Recognised(s, m), m)
  {
    NoSplitBrain(s, m);
    RecognisedNode(s, m);
  }

  lemma BaseSent(cfg: Config, s: Cluster, m: AppendReq)
    requires Base(cfg, s) && m in s.appends
    ensures AppendOk(s, m) && m.to in s.nodes
  {
    SentIsOk(cfg, s, m);
  }

  lemma DeliverCurrent(cfg: Config, s: Cluster, m: AppendReq)
    requires Base(cfg, s) && m in s.appends && AppendOk(s, m) && m.to in s.nodes && InRange(s.nodes[m.to])
    requires m.term >= s.nodes[m.to].currentTerm
    ensures Base(cfg, DeliverAppendStep(cfg, s, m)) && Grows(s, DeliverAppendStep(cfg, s, m))
  {
    hide *;
    RecognisedSent(s, m);
    RecogniseBase(cfg, s, m);
    BaseSent(cfg, Recognised(s, m), m);
    BaseNodeVotes(cfg, s);
    RecognisedStorable(cfg, s, m);
    if PrevMatches(Recognised(s, m).nodes[m.to].log, m) {
      AcceptBase(cfg, s, Recognised(s, m), m);
    } else {
      DeliverConflict(cfg, s, Recognised(s, m), m);
    }
  }

  // ----- Replies to AppendEntries -----

  /** The branch that decrements nextIndex is dead: a refusal without an index is from a later term. */
  lemma RefusalHasIndex(s: Cluster, r: AppendReply)
    requires AppendReplyOk(s, r) && !r.success && r.term <= r.req.term
    ensures r.conflict.Some?
  {
  }

  lemma SuccessFacts(cfg: Config, s: Cluster, r: AppendReply)
    requires NodeVotes(s) && Messages(s) && s.nodes.Keys == cfg.members
    requires r in s.appendReplies && r.success && r.req.entries != []
    requires r.req.leader in s.nodes && s.nodes[r.req.leader].role == Leader
    requires s.nodes[r.req.leader].currentTerm == r.req.term
    ensures r.req.term in s.reigns && r.req.to in s.nodes && r.req.to in cfg.members - {r.req.leader}
    ensures r.req.End() <= |s.nodes[r.req.leader].log|
    ensures NextOk(s, r.req.term, r.req.to, r.req.End())
    ensures r.req.End() - 1 < Acked(s.acked, r.req.term, r.req.to)
  {
    assert AppendReplyOk(s, r);
    assert AppendOk(s, r.req);
    assert NodeVote(s, r.req.leader);
  }

  lemma SuccessIs(cfg: Config, s: Cluster, r: AppendReply)
    requires r.req.leader in s.nodes && InRange(s.nodes[r.req.leader])
    requires r.success && r.req.entries != [] && r.term <= r.req.term
    requires s.nodes[r.req.leader].role == Leader && s.nodes[r.req.leader].currentTerm == r.req.term
    ensures
      var n := Reindexed(s.nodes[r.req.leader], r.req.to, r.req.End(), r.req.End() - 1);
      && InRange(n)
      && ReturnAppendStep(cfg, s, r) ==
         SetNode(SetNode(s, r.req.leader, n), r.req.leader, ApplyStateMachine(Self(cfg, r.req.leader), n))
  {
    var n := Reindexed(s.nodes[r.req.leader], r.req.to, r.req.End(), r.req.End() - 1);
    SetNodeTwice(s, r.req.leader, n, ApplyStateMachine(Self(cfg, r.req.leader), n));
  }

  lemma ReturnSuccess(cfg: Config, s: Cluster, r: AppendReply)
    requires Base(cfg, s) && r in s.appendReplies && r.req.leader in s.nodes && InRange(s.nodes[r.req.leader])
    requires r.success && r.req.entries != [] && r.term <= r.req.term
    requires s.nodes[r.req.leader].role == Leader && s.nodes[r.req.leader].currentTerm == r.req.term
    ensures Base(cfg, ReturnAppendStep(cfg, s, r)) && Grows(s, ReturnAppendStep(cfg, s, r))
  {
    var v := r.req.leader;
    var n := Reindexed(s.nodes[v], r.req.to, r.req.End(), r.req.End() - 1);
    SuccessFacts(cfg, s, r);
    SuccessIs(cfg, s, r);
    ReindexBase(cfg, s, v, r.req.to, r.req.End(), r.req.End() - 1);
    ApplyTouches(Self(cfg, v), n);
    TouchBase(cfg, SetNode(s, v, n), v, ApplyStateMachine(Self(cfg, v), n));
    GrowsTransitive(s, SetNode(s, v, n), ReturnAppendStep(cfg, s, r));
  }

  lemma ConflictFacts(cfg: Config, s: Cluster, r: AppendReply)
    requires NodeVotes(s) && Messages(s) && Leaders(cfg, s)
    requires r in s.appendReplies && !r.success && r.term <= r.req.term
    requires r.req.leader in s.nodes && s.nodes[r.req.leader].role == Leader
    requires s.nodes[r.req.leader].currentTerm == r.req.term
    ensures r.req.term in s.reigns && r.req.to in s.nodes && r.req.to in cfg.members - {r.req.leader}
    ensures r.conflict.Some? && r.conflict.value <= |s.nodes[r.req.leader].log|
    ensures NextOk(s, r.req.term, r.req.to, r.conflict.value)
    ensures r.req.to in s.nodes[r.req.leader].matchIndex
    ensures s.nodes[r.req.leader].matchIndex[r.req.to] < Acked(s.acked, r.req.term, r.req.to)
  {
    assert AppendReplyOk(s, r);
    assert AppendOk(s, r.req);
    assert NodeVote(s, r.req.leader) && Leads(cfg, s, r.req.leader);
    RefusalHasIndex(s, r);
  }

  lemma BacktrackIs(cfg: Config, s: Cluster, r: AppendReply)
    requires r.req.leader in s.nodes && InRange(s.nodes[r.req.leader]) && r.req.to in s.nodes[r.req.leader].matchIndex
    requires !r.success && r.term <= r.req.term && NextIndex(s.nodes[r.req.leader], r.req.to) > 0 && r.conflict.Some?
    requires s.nodes[r.req.leader].role == Leader && s.nodes[r.req.leader].currentTerm == r.req.term
    ensures
      var n := s.nodes[r.req.leader];
      ReturnAppendStep(cfg, s, r) ==
      SetNode(s, r.req.leader, Reindexed(n, r.req.to, r.conflict.value, n.matchIndex[r.req.to]))
  {
    var n := s.nodes[r.req.leader];
    assert n.matchIndex[r.req.to := n.matchIndex[r.req.to]] == n.matchIndex;
  }

  lemma ReturnConflict(cfg: Config, s: Cluster, r: AppendReply)
    requires Base(cfg, s) && r in s.appendReplies && r.req.leader in s.nodes && InRange(s.nodes[r.req.leader])
    requires !r.success && r.term <= r.req.term && NextIndex(s.nodes[r.req.leader], r.req.to) > 0
    requires s.nodes[r.req.leader].role == Leader && s.nodes[r.req.leader].currentTerm == r.req.term
    ensures Base(cfg, ReturnAppendStep(cfg, s, r)) && Grows(s, ReturnAppendStep(cfg, s, r))
  {
    ConflictFacts(cfg, s, r);
    BacktrackIs(cfg, s, r);
    ReindexBase(cfg, s, r.req.leader, r.req.to, r.conflict.value, s.nodes[r.req.leader].matchIndex[r.req.to]);
  }

  lemma ReturnIgnored(cfg: Config, s: Cluster, r: AppendReply)
    requires r.req.leader in s.nodes && InRange(s.nodes[r.req.leader])
    requires OnAppendReply(Self(cfg, r.req.leader), s.nodes[r.req.leader], r) == s.nodes[r.req.leader]
    ensures ReturnAppendStep(cfg, s, r) == s
  {
    assert s.nodes[r.req.leader := s.nodes[r.req.leader]] == s.nodes;
  }

  lemma ReturnAppendBase(cfg: Config, s: Cluster, r: AppendReply)
    requires Base(cfg, s) && r in s.appendReplies && r.req.leader in s.nodes && InRange(s.nodes[r.req.leader])
    ensures Base(cfg, ReturnAppendStep(cfg, s, r)) && Grows(s, ReturnAppendStep(cfg, s, r))
  {
    var n := s.nodes[r.req.leader];
    if r.term > n.currentTerm {
      StepDownBase(cfg, s, r.req.leader, r.term);
    } else if n.role == Leader && n.currentTerm == r.req.term && r.success && r.req.entries != [] {
      ReturnSuccess(cfg, s, r);
    } else if n.role == Leader && n.currentTerm == r.req.term && !r.success && NextIndex(n, r.req.to) > 0 {
      ReturnConflict(cfg, s, r);
    } else {
      ReturnIgnored(cfg, s, r);
      GrowsReflexive(s);
    }
  }

  // ----- All steps -----

  lemma StepDownForAppend(cfg: Config, s: Cluster, req: AppendReq)
    requires Base(cfg, s) && req.to in s.nodes && req.term > s.nodes[req.to].currentTerm
    ensures Base(cfg, StepDownStep(s, req)) && Grows(s, StepDownStep(s, req))
  {
    hide Base, Grows;
    var down := SetNode(s, req.to, BecomeFollower(s.nodes[req.to], req.term));
    StepDownBase(cfg, s, req.to, req.term);
    PauseBase(cfg, down, Paused(req, s.nodes[req.to].currentTerm));
    GrowsTransitive(s, down, StepDownStep(s, req));
  }

  lemma PauseMessages(cfg: Config, s: Cluster, p: Paused)
    ensures var s' := s.(parkedAppends := s.parkedAppends + {p});
            OnlyMessages(s, s') && VoteMessageFacts(cfg, s, s') && AppendMessageFacts(s, s')
  {
  }

  lemma PauseBase(cfg: Config, s: Cluster, p: Paused)
    requires Base(cfg, s) && p.req.to in s.nodes
    ensures var s' := s.(parkedAppends := s.parkedAppends + {p}); Base(cfg, s') && Grows(s, s')
  {
    hide Base, Grows;
    PauseMessages(cfg, s, p);
    MessagesBase(cfg, s, s.(parkedAppends := s.parkedAppends + {p}), p.req.to);
  }

  /** A handler that does not go on late ends like one that never waited, or turns the request
      down as stale. */
  lemma ContinuedIs(cfg: Config, s: Cluster, p: Paused)
    requires WaitOk(s, p) && !Late(cfg, s, p) && InRange(s.nodes[p.req.to])
    ensures
      var n := s.nodes[p.req.to];
      Continued(cfg, s, p) ==
      if n.currentTerm != p.req.term
      then s.(appendReplies := s.appendReplies + {AppendReply(p.req, n.currentTerm, false, None)})
      else if PrevMatches(n.log, p.req) then DeliverAppendStep(cfg, s, p.req)
      else s.(appendReplies := s.appendReplies + {Refusal(s, p.req, p.heard)})
  {
    hide Store;
    assert s.nodes[p.req.to := s.nodes[p.req.to]] == s.nodes;
  }

  lemma ContinuedHas(cfg: Config, s: Cluster, p: Paused)
    requires p.req.to in s.nodes && InRange(s.nodes[p.req.to])
    ensures p.req.to in Continued(cfg, s, p).nodes && Continued(cfg, s, p).parked == s.parked
    ensures Continued(cfg, s, p).parkedAppends == s.parkedAppends
  {
    hide ContinueAppend;
  }

  lemma WaitFacts(s: Cluster, p: Paused)
    requires WaitOk(s, p)
    ensures p.req in s.appends && p.req.to in s.nodes && p.req.term <= s.nodes[p.req.to].currentTerm
  {
  }

  lemma ContinuedBase(cfg: Config, s: Cluster, p: Paused)
    requires Base(cfg, s) && WaitOk(s, p) && !Late(cfg, s, p) && InRange(s.nodes[p.req.to])
    ensures Base(cfg, Continued(cfg, s, p)) && Grows(s, Continued(cfg, s, p))
  {
    assert Messages(s);
    hide Base, Grows, Continued, DeliverAppendStep, WaitOk, AppendReplyOk, AppendOk;
    ContinuedIs(cfg, s, p);
    WaitFacts(s, p);
    SentIsOk(cfg, s, p.req);
    var n := s.nodes[p.req.to];
    if n.currentTerm != p.req.term {
      StaleReply(s, p.req);
      ReplyBase(cfg, s, AppendReply(p.req, n.currentTerm, false, None), p.req.to);
    } else if PrevMatches(n.log, p.req) {
      DeliverAppendBase(cfg, s, p.req);
    } else {
      ConflictReply(s, p.req, p.heard);
      ReplyBase(cfg, s, Refusal(s, p.req, p.heard), p.req.to);
    }
  }

  lemma ResumeBase(cfg: Config, s: Cluster, p: Paused)
    requires Base(cfg, s) && p.req.to in s.nodes && WaitOk(s, p) && !Late(cfg, s, p) && InRange(s.nodes[p.req.to])
    ensures Base(cfg, ResumeAppendStep(cfg, s, p)) && Grows(s, ResumeAppendStep(cfg, s, p))
  {
    hide Base, Grows, Continued, WaitOk, Late, InRange;
    ContinuedBase(cfg, s, p);
    ContinuedHas(cfg, s, p);
    FinishBase(cfg, Continued(cfg, s, p), p.req.to, s.parked, s.parkedAppends - {p});
    GrowsTransitive(s, Continued(cfg, s, p), ResumeAppendStep(cfg, s, p));
  }

  lemma NextBase(cfg: Config, s: Cluster, a: Action)
    requires Base(cfg, s) && Waiting(s) && Enabled(s, a) && InTime(cfg, s, a)
    ensures Base(cfg, Next(cfg, s, a)) && Grows(s, Next(cfg, s, a))
  {
    hide Base, Grows, WaitOk;
    hide TimeoutStep, HeartbeatStep, SubmitStep, DeliverVoteStep, ResumeVoteStep, ReturnVoteStep;
    hide DeliverAppendStep, ReturnAppendStep, StepDownStep, ResumeAppendStep;
    match a
    case Timeout(id) => TimeoutBase(cfg, s, id);
    case Heartbeats(id) => HeartbeatBase(cfg, s, id);
    case Submit(id, command) => SubmitOrReject(cfg, s, id, command);
    case DeliverVote(req) => DeliverVoteBase(cfg, s, req);
    case ResumeVote(req) => ResumeVoteBase(cfg, s, req);
    case ReturnVote(reply) => ReturnVoteBase(cfg, s, reply);
    case DeliverAppend(req) => DeliverAppendBase(cfg, s, req);
    case ReturnAppend(reply) => ReturnAppendBase(cfg, s, reply);
    case StepDown(req) => StepDownForAppend(cfg, s, req);
    case ResumeAppend(p) => ResumeBase(cfg, s, p);
  }

  lemma SubmitOrReject(cfg: Config, s: Cluster, v: Id, command: Command)
    requires Base(cfg, s) && v in s.nodes && InRange(s.nodes[v])
    ensures Base(cfg, SubmitStep(cfg, s, v, command)) && Grows(s, SubmitStep(cfg, s, v, command))
  {
    if s.nodes[v].role == Leader {
      SubmitBase(cfg, s, v, command);
    } else {
      GrowsReflexive(s);
    }
  }

  lemma InitBase(cfg: Config)
    requires ValidConfig(cfg)
    ensures Base(cfg, Init(cfg))
  {
  }

  lemma StepBase(cfg: Config, s: Cluster, s': Cluster)
    requires Base(cfg, s) && Waiting(s) && TimelyStep(cfg, s, s')
    ensures Base(cfg, s') && Grows(s, s')
  {
    hide Base, Grows, Next, WaitOk;
    var a :| Enabled(s, a) && InTime(cfg, s, a) && s' == Next(cfg, s, a);
    NextBase(cfg, s, a);
  }
}
