/**
 Election Safety and what else holds of votes, in every run of every cluster: whatever
 becomes of the logs, and wherever a handler gives the mutex up.
 */
module ElectionResults {
  import opened Commands
  import opened RaftTypes
  import opened Handlers
  import opened Clusters
  import opened Invariants
  import opened VoteSteps
  import opened VoteAnswers
  import opened Steps
  import opened Actors
  import opened Gaps
  import opened VoteRuns

  // ----- One leader per term -----

  lemma LeaderReigns(cfg: Config, s: Cluster, v: Id)
    requires Voting(cfg, s) && v in s.nodes && s.nodes[v].role == Leader
    ensures s.nodes[v].currentTerm in s.reigns && s.reigns[s.nodes[v].currentTerm].leader == v
  {
    assert Casts(s, v);
  }

  /** No term ever has two leaders, at one time or at different times. */
  lemma ElectionSafety(cfg: Config, run: seq<Cluster>, i: nat, j: nat, a: Id, b: Id)
    requires ValidConfig(cfg) && IsRun(cfg, run) && i < |run| && j < |run|
    requires a in run[i].nodes && run[i].nodes[a].role == Leader
    requires b in run[j].nodes && run[j].nodes[b].role == Leader
    requires run[i].nodes[a].currentTerm == run[j].nodes[b].currentTerm
    ensures a == b
  {
    hide Voting, IsRun;
    RunVoting(cfg, run, i);
    RunVoting(cfg, run, j);
    LeaderReigns(cfg, run[i], a);
    LeaderReigns(cfg, run[j], b);
    if i <= j {
      RunReigns(cfg, run, i, j);
    } else {
      RunReigns(cfg, run, j, i);
    }
  }

  /** The "SPLIT BRAIN" branch of onAppendEntries is unreachable. */
  lemma SplitBrainUnreachable(cfg: Config, s: Cluster, m: AppendReq)
    requires ValidConfig(cfg) && Reachable(cfg, s) && m in s.appends
    ensures m.to in s.nodes
    ensures !(s.nodes[m.to].role == Leader && s.nodes[m.to].currentTerm == m.term)
  {
    ReachableVoting(cfg, s);
    assert FromLeader(s, m) && Casts(s, m.to);
    LeaderNotAddressed(s, m);
  }

  /** A refusal that a leader acts on carries an index before the request's: the branch that
      takes one off nextIndex is unreachable. */
  lemma RefusalCarriesIndex(cfg: Config, s: Cluster, r: AppendReply)
    requires ValidConfig(cfg) && Reachable(cfg, s) && r in s.appendReplies && !r.success && r.term <= r.req.term
    ensures r.conflict.Some? && r.conflict.value < r.req.First()
  {
    ReachableVoting(cfg, s);
    assert RefusalForm(r);
  }

  // ----- Who waits for the mutex -----

  ghost predicate LedBefore(s: Cluster, v: Id, t: nat) {
    exists t0: nat :: t0 < t && t0 in s.reigns && s.reigns[t0].leader == v
  }

  /** Every unfinished handler is that of a node that led when its request, of a later term, came. */
  ghost predicate WaitersLed(s: Cluster) {
    && (forall req :: req in s.parked ==> LedBefore(s, req.to, req.term))
    && (forall p :: p in s.parkedAppends ==>
          p.heard < p.req.term && p.heard in s.reigns && s.reigns[p.heard].leader == p.req.to)
  }

  /** Only a leader that hears of a later term gives the mutex up. */
  lemma PausesAsLeader(s: Cluster, a: Action)
    requires Enabled(s, a)
    ensures a.StepDown? ==> s.nodes[Actor(a)].role == Leader && a.areq.term > s.nodes[Actor(a)].currentTerm
    ensures a.DeliverVote? && ReleasesLock(s.nodes[Actor(a)], a.vreq) ==>
              s.nodes[Actor(a)].role == Leader && a.vreq.term > s.nodes[Actor(a)].currentTerm
  {
  }

  lemma StepLed(cfg: Config, s: Cluster, s': Cluster)
    requires Voting(cfg, s) && ReignsStay(s, s') && WaitersLed(s) && Step(cfg, s, s')
    ensures WaitersLed(s')
  {
    hide Next, Voting, Enabled, ReleasesLock;
    var a :| Enabled(s, a) && s' == Next(cfg, s, a);
    ParkedAfter(cfg, s, a);
    ParkedVotesAfter(cfg, s, a);
    ActorIn(s, a);
    PausesAsLeader(s, a);
    if s.nodes[Actor(a)].role == Leader {
      LeaderReigns(cfg, s, Actor(a));
    }
    forall req | req in s'.parked ensures LedBefore(s', req.to, req.term) {
      if req in s.parked {
        var t0: nat :| t0 < req.term && t0 in s.reigns && s.reigns[t0].leader == req.to;
        assert t0 in s'.reigns;
      } else {
        assert s.nodes[req.to].currentTerm in s'.reigns;
      }
    }
  }

  lemma ActorIn(s: Cluster, a: Action)
    requires Enabled(s, a)
    ensures Actor(a) in s.nodes
  {
  }

  lemma StartLed(cfg: Config, run: seq<Cluster>)
    requires IsRun(cfg, run)
    ensures WaitersLed(run[0])
  {
  }

  lemma {:induction false} RunLed(cfg: Config, run: seq<Cluster>, i: nat)
    requires ValidConfig(cfg) && IsRun(cfg, run) && i < |run|
    ensures WaitersLed(run[i])
  {
    hide *;
    if i == 0 {
      StartLed(cfg, run);
    } else {
      RunLed(cfg, run, i - 1);
      RunVoting(cfg, run, i - 1);
      RunReigns(cfg, run, i - 1, i);
      RunStep(cfg, run, i - 1);
      StepLed(cfg, run[i - 1], run[i]);
    }
  }

  /** In every reachable state only nodes that led have an unfinished handler: of onRequestVote
      in an earlier term, of onAppendEntries in the very term its refusal will name. */
  lemma OnlyLeadersWait(cfg: Config, s: Cluster)
    requires ValidConfig(cfg) && Reachable(cfg, s)
    ensures WaitersLed(s)
  {
    hide WaitersLed;
    var run :| IsRun(cfg, run) && run[|run| - 1] == s;
    RunLed(cfg, run, |run| - 1);
  }

  // ----- A node's vote within a term -----

  ghost predicate SameVote(n: Node, n': Node) {
    n'.currentTerm == n.currentTerm ==> n'.votedFor == n.votedFor
  }

  /** A free vote may go to c. */
  ghost predicate MayVote(n: Node, n': Node, c: Id) {
    SameVote(n, n') || (n.votedFor == NO_VOTE && n'.votedFor == c)
  }

  /** A candidate or leader gives its vote up on an AppendEntries of its own term. */
  ghost predicate GivesUp(n: Node, n': Node, term: nat) {
    n'.votedFor == NO_VOTE && n.role != Follower && term == n.currentTerm
  }

  lemma ElectionKeeps(me: Member, n: Node)
    requires InRange(n)
    ensures SameVote(n, StartElection(me, n)) && SameVote(n, HeartbeatNode(me, n))
  {
    hide ScanFrom;
  }

  lemma SubmitKeeps(me: Member, n: Node, command: Command)
    requires InRange(n)
    ensures SameVote(n, SubmitCommand(me, n, command).node)
  {
    if n.role == Leader { SubmitTouches(me, n, command); }
  }

  lemma RequestKeeps(n: Node, req: VoteReq)
    ensures MayVote(n, OnRequestVote(n, req).node, req.candidate) && MayVote(n, DecideVote(n, req).node, req.candidate)
  {
  }

  lemma ReplyKeeps(me: Member, n: Node, reply: VoteReply)
    requires InRange(n)
    ensures SameVote(n, OnVoteReply(me, n, reply))
  {
    hide ScanFrom;
  }

  lemma AppendReplyKeeps(me: Member, n: Node, reply: AppendReply)
    requires InRange(n)
    ensures SameVote(n, OnAppendReply(me, n, reply))
  {
    hide ScanFrom;
  }

  lemma AppendKeeps(me: Member, n: Node, m: AppendReq)
    requires InRange(n)
    ensures SameVote(n, OnAppendEntries(me, n, m).node) || GivesUp(n, OnAppendEntries(me, n, m).node, m.term)
  {
    var f := Recognise(n, m);
    FinishCast(me, f, m, n.currentTerm);
    hide FinishAppend, LexLess;
  }

  lemma ContinueKeeps(me: Member, n: Node, p: Paused)
    requires InRange(n)
    ensures SameVote(n, ContinueAppend(me, n, p).node)
  {
    FinishCast(me, n, p.req, p.heard);
    hide FinishAppend;
  }

  /** What one step can do to the vote of its node. */
  ghost predicate StepVote(n: Node, n': Node, a: Action) {
    || SameVote(n, n')
    || (a.DeliverVote? && MayVote(n, n', a.vreq.candidate))
    || (a.ResumeVote? && MayVote(n, n', a.vreq.candidate))
    || (a.DeliverAppend? && GivesUp(n, n', a.areq.term))
  }

  lemma ActorVotes(cfg: Config, s: Cluster, a: Action)
    requires Enabled(s, a)
    ensures StepVote(s.nodes[Actor(a)], ActorAfter(cfg, s, a), a)
  {
    var me := Self(cfg, Actor(a));
    var n := s.nodes[Actor(a)];
    hide StartElection, HeartbeatNode, SubmitCommand, OnRequestVote, DecideVote, OnVoteReply;
    hide OnAppendEntries, OnAppendReply, ContinueAppend;
    match a
    case Timeout(_) => ElectionKeeps(me, n);
    case Heartbeats(_) => ElectionKeeps(me, n);
    case Submit(_, command) => SubmitKeeps(me, n, command);
    case DeliverVote(req) => RequestKeeps(n, req);
    case ResumeVote(req) => RequestKeeps(n, req);
    case ReturnVote(reply) => ReplyKeeps(me, n, reply);
    case DeliverAppend(m) => AppendKeeps(me, n, m);
    case ReturnAppend(reply) => AppendReplyKeeps(me, n, reply);
    case StepDown(_) =>
    case ResumeAppend(p) => ContinueKeeps(me, n, p);
  }

  /** A vote request is another node's, and an AppendEntries of its own term reaches a node
      that does not follow only if another leads the term. */
  lemma AskedByOther(cfg: Config, s: Cluster, a: Action)
    requires Voting(cfg, s) && Enabled(s, a)
    ensures a.DeliverVote? || a.ResumeVote? ==> a.vreq.candidate != Actor(a) && a.vreq.candidate != NO_VOTE
    ensures a.DeliverAppend? && s.nodes[Actor(a)].role != Follower && a.areq.term == s.nodes[Actor(a)].currentTerm ==>
              var n := s.nodes[Actor(a)];
              && n.votedFor == Actor(a) && n.role == Candidate
              && n.currentTerm in s.reigns && s.reigns[n.currentTerm].leader != Actor(a)
  {
    if a.DeliverVote? || a.ResumeVote? {
      assert RequestCast(s, a.vreq);
    } else if a.DeliverAppend? {
      assert FromLeader(s, a.areq) && Casts(s, Actor(a));
    }
  }

  /** A step keeps a node's vote while its term lasts, or casts a free vote for another node,
      or gives a candidate its own vote back when it recognises another leader of the term. */
  lemma VoteTransition(cfg: Config, s: Cluster, a: Action, v: Id)
    requires ValidConfig(cfg) && Reachable(cfg, s) && Enabled(s, a) && v in s.nodes
    requires v in Next(cfg, s, a).nodes && Next(cfg, s, a).nodes[v].currentTerm == s.nodes[v].currentTerm
    ensures
      var n := s.nodes[v];
      var n' := Next(cfg, s, a).nodes[v];
      || n'.votedFor == n.votedFor
      || (n.votedFor == NO_VOTE && n'.votedFor != v)
      || (n'.votedFor == NO_VOTE && n.votedFor == v && n.role == Candidate
          && n.currentTerm in s.reigns && s.reigns[n.currentTerm].leader != v)
  {
    ReachableVoting(cfg, s);
    NextNodes(cfg, s, a);
    hide Voting, Next, ActorAfter, Reachable;
    ActorVotes(cfg, s, a);
    AskedByOther(cfg, s, a);
  }

  /** The node handles an AppendEntries of the term in which it is a candidate. */
  predicate Recognises(s: Cluster, a: Action, v: Id)
    requires v in s.nodes
  {
    a.DeliverAppend? && a.areq.to == v && a.areq.term == s.nodes[v].currentTerm && s.nodes[v].role == Candidate
  }

  /** In a term a node loses its own vote exactly by recognising another leader of the term. */
  lemma OwnVoteLostExactlyWhen(cfg: Config, s: Cluster, a: Action, v: Id)
    requires ValidConfig(cfg) && Reachable(cfg, s) && Enabled(s, a) && v in s.nodes
    requires v in Next(cfg, s, a).nodes && Next(cfg, s, a).nodes[v].currentTerm == s.nodes[v].currentTerm
    ensures s.nodes[v].votedFor == v && Next(cfg, s, a).nodes[v].votedFor != v <==> Recognises(s, a, v)
  {
    ReachableVoting(cfg, s);
    MemberNamed(cfg, s, v);
    NextNodes(cfg, s, a);
    if Recognises(s, a, v) {
      RecognitionFrees(cfg, s, a, v);
    }
    hide Voting, Next, Reachable, Enabled;
    ActorVotes(cfg, s, a);
    AskedByOther(cfg, s, a);
    hide ActorAfter;
  }

  lemma RecognitionFrees(cfg: Config, s: Cluster, a: Action, v: Id)
    requires Voting(cfg, s) && Enabled(s, a) && v in s.nodes && Recognises(s, a, v)
    ensures s.nodes[v].votedFor == v && ActorAfter(cfg, s, a).votedFor == NO_VOTE && Actor(a) == v
  {
    AskedByOther(cfg, s, a);
    AppendVote(Self(cfg, v), s.nodes[v], a.areq);
    hide Voting, OnAppendEntries;
  }

  /** The order in which v's vote can pass through its values within a term: itself, nobody,
      another node. */
  function VoteRank(v: Id, vote: Id): nat {
    if vote == v then 0 else if vote == NO_VOTE then 1 else 2
  }

  /** The vote is the same or has moved on. */
  predicate MovesOn(v: Id, vote: Id, vote': Id) {
    vote' == vote || VoteRank(v, vote) < VoteRank(v, vote')
  }

  lemma StepMovesOn(cfg: Config, s: Cluster, s': Cluster, v: Id)
    requires ValidConfig(cfg) && Reachable(cfg, s) && Step(cfg, s, s') && v in s.nodes && v != NO_VOTE
    ensures v in s'.nodes && s.nodes[v].currentTerm <= s'.nodes[v].currentTerm
    ensures s'.nodes[v].currentTerm == s.nodes[v].currentTerm ==> MovesOn(v, s.nodes[v].votedFor, s'.nodes[v].votedFor)
  {
    hide Next, Reachable, Enabled;
    var a :| Enabled(s, a) && s' == Next(cfg, s, a);
    StepStays(cfg, s, a);
    hide ActorAfter;
    if s'.nodes[v].currentTerm == s.nodes[v].currentTerm {
      VoteTransition(cfg, s, a, v);
    }
  }

  lemma {:induction false} RunMovesOn(cfg: Config, run: seq<Cluster>, i: nat, j: nat, v: Id)
    requires ValidConfig(cfg) && IsRun(cfg, run) && i <= j < |run| && v in run[i].nodes && v != NO_VOTE
    ensures v in run[j].nodes && run[i].nodes[v].currentTerm <= run[j].nodes[v].currentTerm
    ensures run[j].nodes[v].currentTerm == run[i].nodes[v].currentTerm ==>
              MovesOn(v, run[i].nodes[v].votedFor, run[j].nodes[v].votedFor)
    decreases j
  {
    hide Step, Reachable;
    if i < j {
      RunMovesOn(cfg, run, i, j - 1, v);
      RunStep(cfg, run, j - 1);
      PrefixReachable(cfg, run, j - 1);
      StepMovesOn(cfg, run[j - 1], run[j], v);
    }
  }

  lemma PrefixReachable(cfg: Config, run: seq<Cluster>, i: nat)
    requires IsRun(cfg, run) && i < |run|
    ensures Reachable(cfg, run[i])
  {
    var part := run[..i + 1];
    forall k: nat | k + 1 < |part| ensures StepAt(cfg, part, k) {
      assert StepAt(cfg, run, k);
    }
    assert IsRun(cfg, part) && part[|part| - 1] == run[i];
  }

  /** Within one term a node's vote is its own, then free, then one other node's, in this
      order: each at most once, though the code clears votes without a change of term. */
  lemma VoteHistory(cfg: Config, run: seq<Cluster>, i: nat, j: nat, v: Id)
    requires ValidConfig(cfg) && IsRun(cfg, run) && i <= j < |run| && v in run[i].nodes
    requires v in run[j].nodes && run[j].nodes[v].currentTerm == run[i].nodes[v].currentTerm
    ensures MovesOn(v, run[i].nodes[v].votedFor, run[j].nodes[v].votedFor)
  {
    hide Voting, IsRun;
    RunVoting(cfg, run, i);
    MemberNamed(cfg, run[i], v);
    RunMovesOn(cfg, run, i, j, v);
  }

  lemma MemberNamed(cfg: Config, s: Cluster, v: Id)
    requires Voting(cfg, s) && v in s.nodes
    ensures v != NO_VOTE
  {
  }

  // ----- Counting votes -----

  /** A grant decided after the mutex gap, in a later term than the request's, is never counted. */
  lemma LateGrantNotCounted(cfg: Config, s: Cluster, reply: VoteReply)
    requires ValidConfig(cfg) && Reachable(cfg, s) && reply in s.voteReplies
    requires reply.req.candidate in s.nodes && CountsVote(s.nodes[reply.req.candidate], reply)
    ensures reply.term == reply.req.term
  {
    ReachableVoting(cfg, s);
    assert ReplyCast(s, reply);
  }

  /** v's reply to the call of this election is under way or has been heard: a grant, decided
      in the election's own term. */
  ghost predicate GrantSent(s: Cluster, key: TermId, v: Id) {
    exists r :: r in s.voteReplies && r.granted && r.term == key.term && CallOf(r.req) == Call(key.term, key.id, v)
  }

  ghost predicate CountedGrants(s: Cluster) {
    forall key, v :: key in s.ballots && v in s.ballots[key].counted ==> GrantSent(s, key, v)
  }

  lemma OtherBallots(cfg: Config, s: Cluster, a: Action)
    requires Enabled(s, a) && !a.Timeout? && !a.ReturnVote?
    ensures s.voteReplies <= Next(cfg, s, a).voteReplies && Next(cfg, s, a).ballots == s.ballots
  {
    hide HeartbeatNode, SubmitCommand, OnRequestVote, DecideVote, BecomeFollower, Busy, InRange;
    hide OnAppendEntries, OnAppendReply, ContinueAppend, Broadcast;
  }

  lemma TimeoutBallots(cfg: Config, s: Cluster, v: Id)
    requires Enabled(s, Timeout(v))
    ensures Next(cfg, s, Timeout(v)).voteReplies == s.voteReplies
    ensures forall key, q :: key in Next(cfg, s, Timeout(v)).ballots && q in Next(cfg, s, Timeout(v)).ballots[key].counted
              ==> key in s.ballots && q in s.ballots[key].counted
  {
    hide StartElection, Canvass, InRange;
    var n := StartElection(Self(cfg, v), s.nodes[v]);
    assert Next(cfg, s, Timeout(v)).ballots == s.ballots[TermId(n.currentTerm, v) := Ballot(n.log, {})];
  }

  lemma CrownBallots(s: Cluster, v: Id)
    requires v in s.nodes
    ensures Crown(s, v).voteReplies == s.voteReplies && Crown(s, v).ballots == s.ballots
  {
  }

  lemma ReturnStepBallots(cfg: Config, s: Cluster, reply: VoteReply)
    requires reply.req.candidate in s.nodes && InRange(s.nodes[reply.req.candidate])
    ensures ReturnVoteStep(cfg, s, reply).voteReplies == s.voteReplies
    ensures
      var key := TermId(s.nodes[reply.req.candidate].currentTerm, reply.req.candidate);
      ReturnVoteStep(cfg, s, reply).ballots ==
      if CountsVote(s.nodes[reply.req.candidate], reply) && key in s.ballots
      then s.ballots[key := s.ballots[key].(counted := s.ballots[key].counted + {reply.req.to})] else s.ballots
  {
    hide OnVoteReply, Broadcast, CountsVote, InRange, Crown;
    forall heard: Cluster | reply.req.candidate in heard.nodes
      ensures Crown(heard, reply.req.candidate).voteReplies == heard.voteReplies
      ensures Crown(heard, reply.req.candidate).ballots == heard.ballots
    {
      CrownBallots(heard, reply.req.candidate);
    }
  }

  lemma ReturnBallots(cfg: Config, s: Cluster, reply: VoteReply)
    requires Enabled(s, ReturnVote(reply))
    ensures Next(cfg, s, ReturnVote(reply)).voteReplies == s.voteReplies
    ensures
      var key := TermId(s.nodes[reply.req.candidate].currentTerm, reply.req.candidate);
      Next(cfg, s, ReturnVote(reply)).ballots ==
      if CountsVote(s.nodes[reply.req.candidate], reply) && key in s.ballots
      then s.ballots[key := s.ballots[key].(counted := s.ballots[key].counted + {reply.req.to})] else s.ballots
  {
    hide ReturnVoteStep, CountsVote, InRange;
    ReturnStepBallots(cfg, s, reply);
  }

  /** The steps that change ballots are timeouts and counted replies. */
  lemma BallotsAfter(cfg: Config, s: Cluster, a: Action)
    requires Enabled(s, a)
    ensures s.voteReplies <= Next(cfg, s, a).voteReplies
    ensures forall key, v :: key in Next(cfg, s, a).ballots && v in Next(cfg, s, a).ballots[key].counted ==>
              || (key in s.ballots && v in s.ballots[key].counted)
              || (a.ReturnVote? && CountsVote(s.nodes[Actor(a)], a.vreply)
                  && key == TermId(s.nodes[Actor(a)].currentTerm, Actor(a)) && v == a.vreply.req.to)
  {
    hide Next, Enabled, CountsVote;
    match a
    case Timeout(v) => TimeoutBallots(cfg, s, v);
    case ReturnVote(reply) => ReturnBallots(cfg, s, reply);
    case _ => OtherBallots(cfg, s, a);
  }

  /** A grant decided after the gap, in a later term, is not among those counted. */
  lemma CountedInTerm(cfg: Config, s: Cluster, reply: VoteReply)
    requires Voting(cfg, s) && reply in s.voteReplies
    requires reply.req.candidate in s.nodes && CountsVote(s.nodes[reply.req.candidate], reply)
    ensures GrantSent(s, TermId(s.nodes[reply.req.candidate].currentTerm, reply.req.candidate), reply.req.to)
    ensures reply.term == reply.req.term
  {
    assert ReplyCast(s, reply);
  }

  lemma StepGrants(cfg: Config, s: Cluster, s': Cluster)
    requires Voting(cfg, s) && CountedGrants(s) && Step(cfg, s, s')
    ensures CountedGrants(s')
  {
    hide Next, Voting, CountsVote;
    var a :| Enabled(s, a) && s' == Next(cfg, s, a);
    BallotsAfter(cfg, s, a);
    forall key, v | key in s'.ballots && v in s'.ballots[key].counted ensures GrantSent(s', key, v) {
      if a.ReturnVote? && CountsVote(s.nodes[Actor(a)], a.vreply) {
        CountedInTerm(cfg, s, a.vreply);
      }
      var r :| r in s.voteReplies && r.granted && r.term == key.term && CallOf(r.req) == Call(key.term, key.id, v);
      assert r in s'.voteReplies;
    }
  }

  lemma StartGrants(cfg: Config, run: seq<Cluster>)
    requires IsRun(cfg, run)
    ensures CountedGrants(run[0])
  {
  }

  lemma {:induction false} RunGrants(cfg: Config, run: seq<Cluster>, i: nat)
    requires ValidConfig(cfg) && IsRun(cfg, run) && i < |run|
    ensures CountedGrants(run[i])
  {
    hide *;
    if i == 0 {
      StartGrants(cfg, run);
    } else {
      RunGrants(cfg, run, i - 1);
      RunVoting(cfg, run, i - 1);
      RunStep(cfg, run, i - 1);
      StepGrants(cfg, run[i - 1], run[i]);
    }
  }

  lemma ReachableGrants(cfg: Config, s: Cluster)
    requires ValidConfig(cfg) && Reachable(cfg, s)
    ensures CountedGrants(s)
  {
    hide CountedGrants;
    var run :| IsRun(cfg, run) && run[|run| - 1] == s;
    RunGrants(cfg, run, |run| - 1);
  }

  /** The vote counter of a candidate is a set: itself and the peers whose grants it has heard.
      Each of these peers sent its grant in this very term, and its call has returned. */
  lemma VoteCounterIsSet(cfg: Config, s: Cluster, c: Id) returns (counted: set<Id>)
    requires ValidConfig(cfg) && Reachable(cfg, s) && c in s.nodes && s.nodes[c].role == Candidate
    ensures counted <= cfg.members - {c} && s.nodes[c].votes == 1 + |counted|
    ensures TermId(s.nodes[c].currentTerm, c) in s.ballots
    ensures counted == s.ballots[TermId(s.nodes[c].currentTerm, c)].counted
    ensures forall v :: v in counted ==>
              && Call(s.nodes[c].currentTerm, c, v) in s.returned && VotedFor(s, s.nodes[c].currentTerm, v, c)
              && GrantSent(s, TermId(s.nodes[c].currentTerm, c), v)
    ensures c in cfg.members
  {
    hide Voting;
    ReachableVoting(cfg, s);
    CountedFacts(cfg, s, c);
    ReachableGrants(cfg, s);
    counted := s.ballots[TermId(s.nodes[c].currentTerm, c)].counted;
  }

  /** Any two quorums share a member, whatever the size of the cluster. */
  lemma AnyTwoQuorumsMeet(cfg: Config, a: set<Id>, b: set<Id>) returns (v: Id)
    requires IsQuorum(cfg, a) && IsQuorum(cfg, b)
    ensures v in a && v in b
  {
    v := QuorumsMeet(cfg, a, b);
  }

  lemma NotWonYet(cfg: Config, s: Cluster, c: Id)
    requires Voting(cfg, s) && c in s.nodes && s.nodes[c].role == Candidate
    ensures !s.nodes[c].won
  {
    assert Casts(s, c);
  }

  lemma VoterIsPeer(cfg: Config, s: Cluster, reply: VoteReply)
    requires Voting(cfg, s) && reply in s.voteReplies
    ensures reply.req.to in cfg.members && reply.req.to != reply.req.candidate
  {
    assert ReplyCast(s, reply) && RequestCast(s, reply.req);
  }

  lemma CountingWins(me: Member, n: Node, reply: VoteReply)
    requires InRange(n) && CountsVote(n, reply) && !n.won
    ensures OnVoteReply(me, n, reply).role == Leader <==> n.votes + 1 >= Majority(me)
  {
    hide ScanFrom;
  }

  lemma ReturnAfter(cfg: Config, s: Cluster, reply: VoteReply)
    requires Enabled(s, ReturnVote(reply))
    ensures ActorAfter(cfg, s, ReturnVote(reply)) ==
            OnVoteReply(Self(cfg, reply.req.candidate), s.nodes[reply.req.candidate], reply)
    ensures Actor(ReturnVote(reply)) == reply.req.candidate
  {
  }

  lemma VoteCounted(cfg: Config, s: Cluster, reply: VoteReply)
    requires Enabled(s, ReturnVote(reply)) && CountsVote(s.nodes[reply.req.candidate], reply)
    requires TermId(s.nodes[reply.req.candidate].currentTerm, reply.req.candidate) in s.ballots
    ensures var key := TermId(s.nodes[reply.req.candidate].currentTerm, reply.req.candidate);
            && key in Next(cfg, s, ReturnVote(reply)).ballots
            && Next(cfg, s, ReturnVote(reply)).ballots[key].counted == s.ballots[key].counted + {reply.req.to}
  {
    ReturnBallots(cfg, s, reply);
    hide Next, CountsVote;
  }

  /** A counted grant is from a peer not counted before, and the candidate becomes leader
      exactly when it and the peers counted are a quorum. */
  lemma VoteDecides(cfg: Config, s: Cluster, reply: VoteReply) returns (counted: set<Id>)
    requires ValidConfig(cfg) && Reachable(cfg, s) && Enabled(s, ReturnVote(reply))
    requires CountsVote(s.nodes[reply.req.candidate], reply)
    ensures var c := reply.req.candidate;
            && TermId(s.nodes[c].currentTerm, c) in s.ballots
            && counted == s.ballots[TermId(s.nodes[c].currentTerm, c)].counted
            && counted <= cfg.members - {c} && s.nodes[c].votes == 1 + |counted|
            && (forall v :: v in counted + {reply.req.to} ==> GrantSent(s, TermId(s.nodes[c].currentTerm, c), v))
            && reply.req.to in cfg.members - {c} - counted
            && TermId(s.nodes[c].currentTerm, c) in Next(cfg, s, ReturnVote(reply)).ballots
            && Next(cfg, s, ReturnVote(reply)).ballots[TermId(s.nodes[c].currentTerm, c)].counted == counted + {reply.req.to}
            && c in Next(cfg, s, ReturnVote(reply)).nodes
            && (Next(cfg, s, ReturnVote(reply)).nodes[c].role == Leader <==>
                  IsQuorum(cfg, counted + {reply.req.to} + {c}))
  {
    hide Voting, Next, ActorAfter, OnVoteReply, GrantSent, VotedFor;
    var c := reply.req.candidate;
    counted := VoteCounterIsSet(cfg, s, c);
    ReachableVoting(cfg, s);
    VoterIsPeer(cfg, s, reply);
    CountedInTerm(cfg, s, reply);
    VoteCounted(cfg, s, reply);
    NotWonYet(cfg, s, c);
    NextNodes(cfg, s, ReturnVote(reply));
    ReturnAfter(cfg, s, reply);
    CountingWins(Self(cfg, c), s.nodes[c], reply);
    SelfMajority(cfg, c);
    CountedFacts(cfg, s, c);
    hide Reachable;
    assert |counted + {reply.req.to}| == |counted| + 1;
    assert |counted + {reply.req.to} + {c}| == |counted| + 2;
  }

  lemma CountedFacts(cfg: Config, s: Cluster, c: Id)
    requires Voting(cfg, s) && c in s.nodes && s.nodes[c].role == Candidate
    ensures TermId(s.nodes[c].currentTerm, c) in s.ballots && c in cfg.members
    ensures var counted := s.ballots[TermId(s.nodes[c].currentTerm, c)].counted;
            && counted <= cfg.members - {c} && s.nodes[c].votes == 1 + |counted|
            && forall v :: v in counted ==>
                 Call(s.nodes[c].currentTerm, c, v) in s.returned && VotedFor(s, s.nodes[c].currentTerm, v, c)
  {
    assert Casts(s, c) && BallotCast(s, TermId(s.nodes[c].currentTerm, c));
  }
}
